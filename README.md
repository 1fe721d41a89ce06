# Insighmate in Dafny

Insighmate is a browser app for blind and low-vision users. Its screens
cover barcode scanning, currency and face recognition, a community forum,
volunteer help, voice commands and settings. This project models the
deterministic rules of the app and proves properties of them:

- The volunteer matching service: the filters, the general-support
  fallback, the choice of the best volunteer, the request life cycle, the
  rating update, the handler lists and the reply category.
- The two voice command interpreters, and the listening and speaking flags
  kept around them.
- The local store of posts and contacts.
- The face descriptor store, with its nearest-match search.
- The table, the simulated detection and the colour features of the
  currency service.
- The money screen's running total.
- The volunteer guidance screen's request life cycle.
- The forum's category filter.
- The module announcer.
- The settings screen.

Conventions:

- Each source file is one module. `Text`, `Seqs`, `Optional` and `Speech`
  hold what they share: ASCII lower-casing, `includes`, `filter`/`find`,
  the Option type and the utterance record.
- Objects and React state that the source updates step by step are classes
  whose methods state the whole new state. Pure selectors and decision
  chains are functions.
- Timers are step methods. `Date.now()` ids and timestamps, `Math.random()`
  draws, the presence of the browser speech APIs, the list of installed
  voices, and whether the TensorFlow model could be built are all
  parameters.
- Ratings are integer tenths of a star. Money is integer cents. Speech
  rates are tenths (0.8 is 8). Face distances are squared: `sqrt(s) < 0.6`
  is `s < 0.36`.

## Model

| member | source | states |
|---|---|---|
| `VolunteerService.Online` | src/services/volunteerService.ts:163-165 | the result holds exactly the online volunteers of the list, in list order |
| `VolunteerService.BySpecialty` | src/services/volunteerService.ts:171-177 | the result holds exactly the online volunteers with a specialty whose lower-case form contains the lower-cased query, in list order |
| `VolunteerService.GeneralSupporters` | src/services/volunteerService.ts:207-210 | the fallback holds exactly the online volunteers listing "General Support" verbatim, in list order |
| `VolunteerService.Candidates` | src/services/volunteerService.ts:204-211 | the specialists when there are any, otherwise the general supporters; every candidate is online and the list order is kept |
| `VolunteerService.CandidatesEmpty` | src/services/volunteerService.ts:204-213 | there is no candidate iff no online volunteer is a specialist or a general supporter |
| `VolunteerService.BetterTransitive` | src/services/volunteerService.ts:215-222 | the comparator's "goes before" is transitive |
| `VolunteerService.NotBeatenStep` | src/services/volunteerService.ts:215-222 | a volunteer that beats the best so far is beaten by nobody the best was not beaten by |
| `VolunteerService.BeatsStep` | src/services/volunteerService.ts:215-222 | with numeric times, a volunteer that beats the best so far beats everyone who did not beat it |
| `VolunteerService.SelectVolunteer` | src/services/volunteerService.ts:215-224 | the chosen candidate has the maximal rating, the least response time among equal ratings, and is the first such (the sort is stable) |
| `VolunteerService.NewRatingRounds` | src/services/volunteerService.ts:387-388 | the new rating is 10·(old + stars)/11 tenths, rounded half up as Math.round does |
| `VolunteerService.NewRatingBetween` | src/services/volunteerService.ts:387-388 | the new rating lies between the old rating and the stars given, both ways round |
| `VolunteerService.NewRatingFixed` | src/services/volunteerService.ts:387-388 | a rating equal to the stars given is unchanged |
| `VolunteerService.ReplyCategoryFor` | src/services/volunteerService.ts:295-339 | "help"/"need" gives the help replies iff present; the type pool is drawn from the request's own type |
| `VolunteerService.ReplyChainIsFirstHit` | src/services/volunteerService.ts:297-339 | the pools are tested in the order help/need, where/location, read/text, find/looking for, thank/thanks on the lower-cased message; the first hit wins, and no hit gives the request type's pool |
| `VolunteerService.ReplyFallsBackToType` | src/services/volunteerService.ts:297-339 | the request-type pool is used iff none of the keywords occur ("thanks" is subsumed by "thank") |
| `VolunteerService.Service.constructor` | src/services/volunteerService.ts:41-113 | the service starts disconnected with no request, no handlers and the six seeded volunteers |
| `VolunteerService.Service.Connect` | src/services/volunteerService.ts:143-155 | after connect the service is connected, whether or not it was before |
| `VolunteerService.Service.Disconnect` | src/services/volunteerService.ts:157-161 | disconnect clears the flag and the current request |
| `VolunteerService.Service.AvailableVolunteers` | src/services/volunteerService.ts:163-165 | exactly the online volunteers of the service, in list order |
| `VolunteerService.Service.VolunteersBySpecialty` | src/services/volunteerService.ts:171-177 | exactly the online volunteers of the service with a matching specialty, in list order |
| `VolunteerService.Service.RequestHelp` | src/services/volunteerService.ts:179-200 | the service connects and records a pending request with no volunteer, user "user-1", the given type, description and priority (medium by default) |
| `VolunteerService.Service.FindAndAssignVolunteer` | src/services/volunteerService.ts:202-266 | with candidates the request becomes connected to the candidate the sort puts first; without, cancelled with no volunteer; no other field changes |
| `VolunteerService.Service.VolunteerResponse` | src/services/volunteerService.ts:287-351 | no reply iff no volunteer is assigned; otherwise a reply from that volunteer, from the category the keywords choose |
| `VolunteerService.Service.EndSession` | src/services/volunteerService.ts:354-362 | the current request is completed iff its id matches; otherwise nothing changes |
| `VolunteerService.Service.RateVolunteer` | src/services/volunteerService.ts:383-392 | only the first volunteer with the id gets the new rating; an unknown id changes nothing |
| `VolunteerService.Service.SimulateStatusChange` | src/services/volunteerService.ts:416-425 | the drawn index is in range, and that volunteer flips online status when the second draw exceeds 0.8; nothing else changes |
| `VolunteerService.Service.OnMessage` | src/services/volunteerService.ts:395-397 | the handler is appended |
| `VolunteerService.Service.OnStatusChange` | src/services/volunteerService.ts:399-401 | the handler is appended |
| `VolunteerService.Service.RemoveMessageHandler` | src/services/volunteerService.ts:403-405 | every registration of the handler goes, the others stay in order |
| `VolunteerService.Service.RemoveStatusHandler` | src/services/volunteerService.ts:407-409 | every registration of the handler goes, the others stay in order |
| `VolunteerService.RegisterThenRemove` | src/services/volunteerService.ts:395-409 | registering a new handler and removing it restores the list |
| `VoiceContext.ProcessVoiceCommand` | src/contexts/VoiceContext.tsx:126-188 | every answer starts with "navigate:", "action:" or "info:", and "info:" iff no rule matched |
| `VoiceContext.OnlyLowerCaseMatters` | src/contexts/VoiceContext.tsx:127-187 | commands equal once lower-cased get the same decision; only the info message quotes the command as spoken |
| `VoiceContext.HomeFromAnywhere` | src/contexts/VoiceContext.tsx:130-132 | a navigation verb with "home" navigates home from every module |
| `VoiceContext.NavigationPrecedence` | src/contexts/VoiceContext.tsx:130-185 | navigation wins over module actions; a navigation verb without a module keyword falls through to the module switch |
| `VoiceContext.NavigationChainIsFirstHit` | src/contexts/VoiceContext.tsx:131-145 | the targets are tested in the order home, barcode, community, face, money, volunteer, settings, and the first hit wins |
| `VoiceContext.MoneyActions` | src/contexts/VoiceContext.tsx:164-171 | in the money module: scan/identify, else total, else clear, else nothing |
| `VoiceContext.BarcodeActions` | src/contexts/VoiceContext.tsx:150-155 | in the barcode module "start"/"scan" is tested before "stop" |
| `VoiceContext.Provider.constructor` | src/contexts/VoiceContext.tsx:28-32 | the provider starts idle and silent, with voice enabled and nothing spoken |
| `VoiceContext.Provider.StartListening` | src/contexts/VoiceContext.tsx:63-70 | without a recognizer or with voice disabled nothing changes; otherwise the error and the transcript are cleared and listening starts |
| `VoiceContext.Provider.StopListening` | src/contexts/VoiceContext.tsx:72-77 | with a recognizer, listening stops |
| `VoiceContext.Provider.OnResult` | src/contexts/VoiceContext.tsx:44-48 | the transcript becomes the result's text |
| `VoiceContext.Provider.OnEnd` | src/contexts/VoiceContext.tsx:50-52 | listening stops |
| `VoiceContext.Provider.OnError` | src/contexts/VoiceContext.tsx:54-57 | the error is recorded and listening stops |
| `VoiceContext.Provider.SetVoiceEnabled` | src/contexts/VoiceContext.tsx:31 | the flag takes the given value |
| `VoiceContext.Provider.Speak` | src/contexts/VoiceContext.tsx:79-117 | with synthesis and voice enabled, the text is spoken at the given rate or 0.8, with the preferred voice; otherwise nothing changes |
| `VoiceContext.Provider.OnSpeechDone` | src/contexts/VoiceContext.tsx:86-91 | speaking stops |
| `VoiceContext.Provider.StopSpeaking` | src/contexts/VoiceContext.tsx:119-124 | with synthesis, speaking stops |
| `VoiceContext.SpeechRate` | src/contexts/VoiceContext.tsx:85 | a missing or zero rate gives 0.8, any other is kept |
| `VoiceContext.PreferredVoice` | src/contexts/VoiceContext.tsx:94-110 | an absent or empty request (falsy) gives no voice; otherwise the first voice whose lower-cased name contains the lower-cased request, none iff no voice matches |
| `VoiceInteraction.RespondIsFirstHit` | src/components/VoiceInteraction.tsx:58-76 | the openings are tested in the order scan/barcode, community/forum, money/currency, face/person, help/volunteer, settings/preferences on the lower-cased command; the first hit wins, and no hit gives the fallback |
| `VoiceInteraction.FallbackQuotesCommand` | src/components/VoiceInteraction.tsx:74-76 | the fallback response contains the command exactly as spoken |
| `VoiceInteraction.ScanWins` | src/components/VoiceInteraction.tsx:62-63 | any command with "scan" opens the barcode scanner |
| `VoiceInteraction.Panel.constructor` | src/components/VoiceInteraction.tsx:5-8 | the panel starts idle with empty transcript and response |
| `VoiceInteraction.Panel.StartListening` | src/components/VoiceInteraction.tsx:43-49 | without a recognizer nothing changes; otherwise the transcript is cleared and listening starts |
| `VoiceInteraction.Panel.StopListening` | src/components/VoiceInteraction.tsx:51-56 | with a recognizer, listening stops |
| `VoiceInteraction.Panel.OnResult` | src/components/VoiceInteraction.tsx:20-28 | every result sets the transcript; only a final one is answered and spoken |
| `VoiceInteraction.Panel.OnEnd` | src/components/VoiceInteraction.tsx:30-37 | onend and onerror both stop listening |
| `VoiceInteraction.Panel.ProcessVoiceCommand` | src/components/VoiceInteraction.tsx:58-80 | the response shown is the keyword response, and the same text is spoken |
| `VoiceInteraction.Panel.SpeakResponse` | src/components/VoiceInteraction.tsx:82-90 | with synthesis, the text is spoken at 0.8 and speaking starts |
| `VoiceInteraction.Panel.OnSpeechEnd` | src/components/VoiceInteraction.tsx:87 | speaking stops |
| `VoiceInteraction.Panel.StopSpeaking` | src/components/VoiceInteraction.tsx:92-97 | with synthesis, speaking stops |
| `Database.Liked` | src/contexts/DatabaseContext.tsx:167-171 | same length; posts with the id get exactly one more like; every other post is unchanged |
| `Database.LikedTotal` | src/contexts/DatabaseContext.tsx:167-171 | the total of likes grows by the number of posts with the id |
| `Database.AbsentPostUnchanged` | src/contexts/DatabaseContext.tsx:167-189 | liking or commenting on an absent id leaves the list equal to the old one |
| `Database.Commented` | src/contexts/DatabaseContext.tsx:184-189 | same length; the comment goes at the end of the matching posts' comments only |
| `Database.CommentedTotal` | src/contexts/DatabaseContext.tsx:177-193 | the number of comments grows by the number of posts with the id |
| `Database.Seen` | src/contexts/DatabaseContext.tsx:205-211 | same length; contacts with the id get the new time; the others are unchanged |
| `Database.SeenKeepsIdentity` | src/contexts/DatabaseContext.tsx:205-211 | only lastSeen ever changes |
| `Database.Store.constructor` | src/contexts/DatabaseContext.tsx:71-153 | the store holds, and has saved, the loaded or seeded lists |
| `Database.Store.AddPost` | src/contexts/DatabaseContext.tsx:155-165 | the new post goes first with no likes and no comments; the older posts follow unchanged |
| `Database.Store.LikePost` | src/contexts/DatabaseContext.tsx:167-175 | the posts become the liked list, which is also the list saved |
| `Database.Store.AddComment` | src/contexts/DatabaseContext.tsx:177-193 | the posts become the commented list, which is also the list saved |
| `Database.Store.AddContact` | src/contexts/DatabaseContext.tsx:195-203 | exactly one contact is appended, seen now |
| `Database.Store.UpdateContactLastSeen` | src/contexts/DatabaseContext.tsx:205-215 | the contacts become the updated list, which is also the list saved |
| `FaceRecognition.SumSq` | src/services/faceRecognition.ts:107-113 | the sum of squares is never negative |
| `FaceRecognition.SquaredDistance` | src/services/faceRecognition.ts:107-113 | the distance is undefined (NaN) iff the stored descriptor is shorter than the query, and never negative otherwise |
| `FaceRecognition.SumSqSymmetric` | src/services/faceRecognition.ts:107-113 | the sum of squares is symmetric in its arguments |
| `FaceRecognition.SumSqSelf` | src/services/faceRecognition.ts:107-113 | a vector's sum of squares against itself is 0 |
| `FaceRecognition.DistanceProperties` | src/services/faceRecognition.ts:107-113 | the distance is symmetric for equal lengths and 0 from a descriptor to itself |
| `FaceRecognition.CalculateDistance` | src/services/faceRecognition.ts:107-113 | the loop accumulates the squared distance |
| `FaceRecognition.Recognizer.constructor` | src/services/faceRecognition.ts:9-12 | uninitialised, with no descriptors |
| `FaceRecognition.Recognizer.Initialize` | src/services/faceRecognition.ts:14-30 | the flag is set once the model loads and is never cleared |
| `FaceRecognition.Recognizer.FindBestMatch` | src/services/faceRecognition.ts:90-105 | none iff no stored face (none at all included) is under 0.6; otherwise the nearest under 0.6, the earliest among equals |
| `FaceRecognition.Recognizer.AddFaceDescriptor` | src/services/faceRecognition.ts:115-117 | exactly one entry is appended |
| `FaceRecognition.Recognizer.RemoveFaceDescriptor` | src/services/faceRecognition.ts:119-121 | every entry with the id goes; the others stay, in order |
| `FaceRecognition.Recognizer.DetectFaces` | src/services/faceRecognition.ts:46-88 | an unreadable frame or a draw of at most 0.3 gives no face; otherwise one face at the fixed box with its best match |
| `CurrencyRecognition.TemplateTable` | src/services/currencyRecognition.ts:16-63 | six bills and six coins, one per unit of the 12-way output layer, four features each |
| `CurrencyRecognition.TemplateIndex` | src/services/currencyRecognition.ts:102 | floor(r·n) is always an index of the table |
| `CurrencyRecognition.Confidence` | src/services/currencyRecognition.ts:105 | the confidence lies in 85..98, so 99 is never produced |
| `CurrencyRecognition.ConfidenceReaches` | src/services/currencyRecognition.ts:105 | every value in 85..98 is produced by some draw |
| `CurrencyRecognition.SimulateCurrencyDetection` | src/services/currencyRecognition.ts:93-119 | empty iff the first draw is at most 0.4; otherwise one result, a bill iff the second draw exceeds 0.3, denomination from that table, USD, height 75 |
| `CurrencyRecognition.ChannelSum` | src/services/currencyRecognition.ts:128-132 | a channel's sum over n pixels lies in 0..255·n |
| `CurrencyRecognition.MeanLevel` | src/services/currencyRecognition.ts:134-137 | a channel's scaled mean lies in [0, 1] |
| `CurrencyRecognition.AnalyzeCurrencyFeatures` | src/services/currencyRecognition.ts:121-143 | four features: the mean red, green and blue levels from offsets 0, 1 and 2 of each pixel, each in [0, 1], then the texture draw |
| `CurrencyRecognition.Recognizer.constructor` | src/services/currencyRecognition.ts:11-13 | uninitialised |
| `CurrencyRecognition.Recognizer.Initialize` | src/services/currencyRecognition.ts:35-46 | the flag is set once the model loads and is never cleared |
| `CurrencyRecognition.Recognizer.RecognizeCurrency` | src/services/currencyRecognition.ts:70-91 | an unreadable frame gives no results; otherwise the simulated detection |
| `MoneyRecognition.RemoveFirst` | src/components/MoneyRecognition.tsx:37 | one character fewer when the character occurs, the string unchanged otherwise |
| `MoneyRecognition.RemovesFirstOccurrence` | src/components/MoneyRecognition.tsx:37 | the character removed is its first occurrence, and the rest of the string is kept in order |
| `MoneyRecognition.ParseCents` | src/components/MoneyRecognition.tsx:37 | a plain digit string is that many dollars; a parsed amount has no '$' |
| `MoneyRecognition.SumCentsAppend` | src/components/MoneyRecognition.tsx:38-39 | appending an item adds its value to the sum |
| `MoneyRecognition.MockValues` | src/components/MoneyRecognition.tsx:21-29 | every mock denomination parses, to 2000, 1000, 500, 100, 25, 10 and 5 cents |
| `MoneyRecognition.Scanner.constructor` | src/components/MoneyRecognition.tsx:12-15 | not scanning, nothing recognised, total 0, no items |
| `MoneyRecognition.Scanner.StartScan` | src/components/MoneyRecognition.tsx:17-19 | starting a scan (the button is disabled while one runs) sets scanning and clears the recognised currency |
| `MoneyRecognition.Scanner.Record` | src/components/MoneyRecognition.tsx:31-39 | the picked mock is shown and appended, its value is added, scanning stops, and the total stays the sum of the items |
| `MoneyRecognition.Scanner.CompleteScan` | src/components/MoneyRecognition.tsx:31-49 | the same, and the announcement gives the new running total |
| `MoneyRecognition.Scanner.CompleteScanAsWritten` | src/components/MoneyRecognition.tsx:31-49 | the same state; the announcement adds the value to the total seen when the scan started |
| `MoneyRecognition.Scanner.SpeakTotal` | src/components/MoneyRecognition.tsx:52-60 | reports the total and item count, changing nothing else |
| `MoneyRecognition.Scanner.ClearTotal` | src/components/MoneyRecognition.tsx:62-72 | total 0, no items, nothing recognised |
| `MoneyRecognition.StaleTotalScenario` | src/components/MoneyRecognition.tsx:44 | as written, clearing during a scan makes the announcement say $25 while the total is $5 |
| `MoneyRecognition.CorrectedScenario` | src/components/MoneyRecognition.tsx:38-44 | with the corrected announcement the same steps announce the $5 shown |
| `VolunteerGuidance.FirstOnline` | src/components/VolunteerGuidance.tsx:71 | the first online volunteer in list order, none iff nobody is online |
| `VolunteerGuidance.SeededConnect` | src/components/VolunteerGuidance.tsx:24-49 | with the screen's list the connect step picks Emma Thompson |
| `VolunteerGuidance.Screen.constructor` | src/components/VolunteerGuidance.tsx:22-24 | no request, no help type |
| `VolunteerGuidance.Screen.RequestHelp` | src/components/VolunteerGuidance.tsx:58-67 | the type is stored and a pending request with no volunteer becomes current |
| `VolunteerGuidance.Screen.ConnectStep` | src/components/VolunteerGuidance.tsx:70-87 | with nobody online nothing changes; otherwise the current request becomes connected to the first online volunteer and a missing request stays missing |
| `VolunteerGuidance.Screen.EndSession` | src/components/VolunteerGuidance.tsx:90-110 | a current request is completed with its other fields kept; without one nothing happens |
| `VolunteerGuidance.Screen.ResetStep` | src/components/VolunteerGuidance.tsx:97-100 | no request and an empty help type |
| `CommunityForum.FilteredPosts` | src/components/CommunityForum.tsx:53-55 | 'All' gives the list unchanged; any other category exactly its posts; always an order-preserving subsequence |
| `CommunityForum.SupportIsEmpty` | src/components/CommunityForum.tsx:51 | 'Support' is offered but selects no post, so the empty state shows |
| `VoicePrompts.AnnouncedModules` | src/components/VoicePrompts.tsx:15-41 | a module id has an announcement iff it is one of the eight known ids |
| `VoicePrompts.AnnounceModuleChange` | src/components/VoicePrompts.tsx:10-49 | something is spoken iff prompts are on, synthesis exists and the id is known; it is that module's announcement at rate 0.8 |
| `VoicePrompts.Prompts.Render` | src/components/VoicePrompts.tsx:9-53 | the announcement runs on the first render and whenever the module or the flag changes, and only then |
| `AppSettings.PreferredVoice` | src/components/AppSettings.tsx:24-32 | the first voice suiting the gender ('female'/'samantha' or 'male'/'alex'); none iff no voice suits |
| `AppSettings.MaleAcceptsFemaleNames` | src/components/AppSettings.tsx:26-27 | a voice named "...female..." also suits the male preference |
| `AppSettings.MalePicksListedFemaleVoice` | src/components/AppSettings.tsx:25-27 | a male preference picks a "...female..." voice listed first |
| `AppSettings.Settings.constructor` | src/components/AppSettings.tsx:10-14 | font 'large', no high contrast, haptics on, rate 0.8, female voice |
| `AppSettings.Settings.ToggleVoice` | src/components/AppSettings.tsx:62 | only the voice flag flips |
| `AppSettings.Settings.ToggleHighContrast` | src/components/AppSettings.tsx:168 | only the high-contrast flag flips |
| `AppSettings.Settings.ToggleHapticFeedback` | src/components/AppSettings.tsx:198 | only the haptic flag flips |
| `AppSettings.Settings.SetFontSize` | src/components/AppSettings.tsx:145-148 | the chosen size of the four offered |
| `AppSettings.Settings.SetSpeechRate` | src/components/AppSettings.tsx:78-84 | the slider's rate, 0.5 to 2 |
| `AppSettings.Settings.SetVoiceGender` | src/components/AppSettings.tsx:98-119 | the chosen gender |
| `AppSettings.Settings.HandleVoiceTest` | src/components/AppSettings.tsx:16-36 | with synthesis, the test sentence at the current rate with the preferred voice, or with the voice unset when none suits |

## Left out

- TensorFlow: building the networks and turning frames into tensors are
  foreign library calls. Whether the model could be built, and whether a
  frame could be read, are parameters.
- The browser speech APIs are left out: recognizer objects, utterance
  objects, `speechSynthesis.cancel` before speaking, and voice loading via
  `onvoiceschanged`. Their presence is a constant. Their callbacks are
  methods. The list of voices is a parameter, and a list that is not yet
  loaded gives no voice.
- Timers are left out: the delays of `connect`, the matching and the
  welcome message, the farewell message, and the scan, connect, reset and
  announcement timers. Each timer body is a step method, and the delays
  themselves are not modelled.
- `Date.now()` ids and timestamps, and `Math.random()` draws, are
  parameters.
- The welcome and farewell messages, `sendMessage`, and the random choice
  of a reply text within a pool are left out. The reply is modelled by its
  sender and its pool (`ReplyCategory`).
- Calls to registered handlers are left out. Handlers are identities in a
  list.
- localStorage loading and JSON parsing are left out. The store starts
  from whatever lists were loaded or seeded.
- `Database.Store.AddPost` and `Database.Store.AddContact` save the list
  they install. The source writes a list built from the render's `posts`
  or `contacts` value, which differs only when several updates happen
  within one render.
- Volunteer display fields (avatar, location, languages, experience) and
  `getAllVolunteers`/`getCurrentRequest` are left out. The getters only
  return a field.
- `VolunteerService.Service.RateVolunteer` updates a volunteer as a value.
  In the source, the volunteer object is shared with
  `currentRequest.volunteer`, which changes with it; that aliasing is not
  modelled.
- `VolunteerService.Service.SimulateStatusChange` flips the drawn
  volunteer's online flag as a value. In the source, that object can be
  the one held in `currentRequest.volunteer`, which then changes with it;
  that aliasing is not modelled.
- `VolunteerService.SelectVolunteer` states the element the stable sort
  puts first, not the in-place reordering of the filtered copy. When some
  response time has no digits, the comparator returns NaN and is
  inconsistent. In that case only the maximality half of its contract is
  stated.
- `MoneyRecognition.ParseCents` reads only digits with at most two
  decimals, which covers every mock denomination. Other `parseFloat`
  inputs are not modelled.
- Floating point is replaced by tenths, cents and squared distances, as
  described above. The `toFixed(2)` formatting of totals is not modelled.
- Lower-casing is ASCII only.
- Rendering, routing, the barcode scanner screen and the face recognition
  screen are left out. The barcode and face screens only flip flags around
  a timer and show a mock.
- Bounding-box coordinates are kept as given by the draws, with no bound
  stated on them.

## Findings

| source | as written | input that shows it | evidently intended | confidence | as-written member | corrected member |
|---|---|---|---|---|---|---|
| src/components/MoneyRecognition.tsx:44 | the recognition announcement adds the new value to `totalAmount` as captured when the scan started, while the state update adds it to the current total; Clear Total stays enabled during a scan | scan $20, start a second scan, press Clear Total, the scan finds $5: it announces 25.00 dollars while the total shows $5.00 | announce the running total the screen shows after the scan | not executed | `MoneyRecognition.StaleTotalScenario` | `MoneyRecognition.CorrectedScenario` |
