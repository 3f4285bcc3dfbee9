# StrumSpace core, modelled in Dafny

StrumSpace is an AR guitar teacher. This project models its core, verified in Dafny 4.11:

- **The service orchestrator (`strumspace-api/services/orchestrator.js`).** It coordinates two remote services: the AI guitar teacher and the CV guitar-vision tracker.
  - A registry holds the two service descriptors.
  - A retrying caller uses linear backoff.
  - When a service is skipped or exhausted, one of two local fallbacks answers instead:
    - a chord name guessed from the question with a regular expression;
    - finger dots placed by a fixed linear map.
  - The request pipeline runs in a fixed order: AI, then chord lookup, then an optional CV call, then the reply and the broadcasts.
  - A health-check state machine announces only changes.
  - Request metrics: counters, a moving average of latency, and a one-minute window.
  - System status and service registration.
- **The chord catalogue and routes of the API server (`strumspace-api/server.js`).**
  - The reference table, including its redirect stubs.
  - Key normalisation.
  - The lookup, list, search and progression routes.
  - Field validation for the request and registration routes.
- **Four small helpers from other parts of the system.**
  - The voice extractor's confidence score and forwarding gate.
  - The song catalogue page's filter.
  - The overlay's fret/string-to-pixel placement.
  - The fretboard tracker's box merge.

Every operation is a pure function. State that the source mutates in place is passed in and returned. Remote calls, clocks and probes become inputs:
- a script of outcomes for each retrying call;
- a probe result for each health check;
- an explicit `now`.

Module layout, one file each:
- `Wrappers`, `Seqs`, `Text` and `JsValues` hold the shared vocabulary. This is `Option`/`Result`, order-preserving filter, ASCII case mapping, JavaScript whitespace, substring search, decimal printing and JavaScript truthiness.
- The orchestrator is split into:
  - `ChordCatalogue`: the table;
  - `Registry`, `Retry`, `Replies` and `Fallback`;
  - `Health` and `Metrics`;
  - `Orchestrator`: the pipeline and status.
- The remaining modules are `Server`, `ChordExtractor`, `SongCatalogue`, `Overlay` and `Tracker`.

Integers are unbounded. Confidence is kept in integer hundredths. The latency average is a Dafny `real`.

## Model

| member | source | states |
|---|---|---|
| ChordCatalogue.Lookup | strumspace-api/services/orchestrator.js:434-436 | `chordDatabase[key] \|\| null`: no entry exactly when the key is absent; a found entry is stored under that key |
| ChordCatalogue.LookupDistinct | strumspace-api/server.js:28-332 | in a table with distinct keys, looking up the i-th key yields the i-th value |
| ChordCatalogue.NormaliseKey | strumspace-api/server.js:372 | the key is exactly the name with every whitespace character removed and every letter lower-cased; it has no whitespace, no upper-case letter, and is no longer than the name |
| Text.StripSpacesOfLower | strumspace-api/server.js:372 | lower-casing and removing whitespace commute: either order gives the same key |
| ChordCatalogue.NormaliseKeyIdempotent | strumspace-api/services/orchestrator.js:70 | normalising a normalised key changes nothing |
| ChordCatalogue.StubsResolve | strumspace-api/server.js:28-332 | when keys are distinct and every stub's target is a full record, every redirect resolves to a full record |
| ChordCatalogue.AppendPreserves | strumspace-api/server.js:28-332 | distinct keys (given disjoint key sets), stub targets, id/key agreement and string ranges all survive concatenating two tables |
| ChordCatalogue.DisjointAppend | strumspace-api/server.js:28-332 | two tables each disjoint from a third stay disjoint from it when joined |
| ChordCatalogue.PartsKeysDistinct | strumspace-api/server.js:30-331 | the major, minor and extended sections of the table each have distinct keys |
| ChordCatalogue.PartsKeysDisjoint | strumspace-api/server.js:30-331 | no key appears in two sections |
| ChordCatalogue.TableKeysDistinct | strumspace-api/server.js:28-332 | the table's 30 keys are pairwise distinct |
| ChordCatalogue.PartsStubsFollowTargets | strumspace-api/server.js:30-331 | in each section a redirect stub follows its target, which holds a full record |
| ChordCatalogue.TableStubsFollowTargets | strumspace-api/server.js:43-187 | every redirect stub's target is a key holding a full record |
| ChordCatalogue.PartsIdsMatchKeys | strumspace-api/server.js:30-331 | in each section, each full record's `id` equals its key |
| ChordCatalogue.TableIdsMatchKeys | strumspace-api/server.js:28-332 | each full record's `id` equals its key |
| ChordCatalogue.TableStringsInRange | strumspace-api/server.js:28-332 | every finger position names a string from 1 to 6 |
| ChordCatalogue.TableWellFormed | strumspace-api/server.js:28-332 | the table has distinct keys, resolving redirects, matching ids and strings in range |
| Registry.EnvOr | strumspace-api/services/orchestrator.js:16 | `process.env.X \|\| default`: a set, non-empty variable wins; otherwise the default |
| Registry.InitialServices | strumspace-api/services/orchestrator.js:13-36 | both descriptors start unknown, with retry count 0 and at most 3 retries |
| Registry.RegisterService | strumspace-api/services/orchestrator.js:460-471 | an unknown service name changes nothing; a known one is overwritten only in the supplied fields, keeping status and retry count, and gets the registration time |
| Registry.RegistrationKeepsHealth | strumspace-api/services/orchestrator.js:460-471 | a registration changes no service's status or retry count, and so not the overall status |
| Registry.RegisterTwice | strumspace-api/services/orchestrator.js:460-471 | two registrations of one service equal one with the later patch's fields winning and the later time |
| Registry.RegisterIdempotent | strumspace-api/services/orchestrator.js:460-471 | repeating a registration changes nothing more |
| Registry.HealthyCount | strumspace-api/services/orchestrator.js:413-414 | the number of healthy services, at most 2 |
| Registry.OverallStatus | strumspace-api/services/orchestrator.js:413-419 | excellent iff both services are healthy, degraded iff exactly one is, critical iff neither is |
| Retry.CallWithRetry | strumspace-api/services/orchestrator.js:118-155 | a non-healthy service gets no attempt; otherwise every attempt before the last failed, and the k-th wait is 1000·(count+k+1) ms; a reply resets the count and records the elapsed time; running out leaves the count past `maxRetries`; only the retry state changes |
| Retry.FirstReplyIsUsed | strumspace-api/services/orchestrator.js:121-137 | a healthy service whose first attempt replies returns that reply after one attempt, with count 0 |
| Retry.FailingCallExhaustsBudget | strumspace-api/services/orchestrator.js:139-149 | a healthy, always-failing service starting at count c gets maxRetries−c+1 attempts, waits 1000·(c+1) … 1000·maxRetries ms, and ends at count maxRetries+1 |
| Retry.Backoffs | strumspace-api/services/orchestrator.js:143-145 | the waits list has maxRetries−c entries, the k-th being 1000·(c+k+1) ms |
| Retry.ExhaustedCountIsNotReset | strumspace-api/services/orchestrator.js:141-149 | with the count already past `maxRetries`, a failing call makes one attempt, no wait, and raises the count |
| Retry.SecondFailingCallTriesOnce | strumspace-api/services/orchestrator.js:141-154 | after one exhausted call, the next failing call tries once and leaves the count at maxRetries+2 |
| Retry.SuccessRestoresBudget | strumspace-api/services/orchestrator.js:133-134 | a first-attempt success resets the count to 0 and records its elapsed time |
| Retry.BackoffSum | strumspace-api/services/orchestrator.js:145 | waits of 1000·(c+1), 1000·(c+2), … add up to 1000·(T(c+n) − T(c)), where T is the triangle number |
| Retry.WaitingIsBounded | strumspace-api/services/orchestrator.js:141-147 | one call waits at most 1000·(1+…+maxRetries) ms and makes at most maxRetries+1 attempts |
| Fallback.FirstQuality | strumspace-api/services/orchestrator.js:202 | the quality group picks an alternative the text starts with (ignoring case) such that no earlier alternative fits, or none iff no alternative fits |
| Fallback.SkipSpaces | strumspace-api/services/orchestrator.js:202 | the greedy `\s*` stops at the first non-whitespace character |
| Fallback.RootEnd | strumspace-api/services/orchestrator.js:202 | the root takes one character, two exactly when the next character is `#` or `b` |
| Fallback.MatchEnd | strumspace-api/services/orchestrator.js:202 | a match at a root letter is non-empty and fits in the text |
| Fallback.MatchEndSkipsSpaces | strumspace-api/services/orchestrator.js:202 | after the root and accidental, the match takes the whole whitespace run `\s*` and stops before the first non-whitespace character |
| Fallback.MatchEndTakesFirstQuality | strumspace-api/services/orchestrator.js:202 | after the whitespace, the match ends right there iff no quality alternative fits; otherwise it extends by the length of the first alternative that fits |
| Fallback.QualityAt | strumspace-api/services/orchestrator.js:202 | the quality group is absent iff no alternative fits; present, it has the length of an alternative that fits with none before it fitting |
| Fallback.Token | strumspace-api/services/orchestrator.js:202 | the match at a root letter is the text's prefix up to the match end |
| Fallback.FirstRoot | strumspace-api/services/orchestrator.js:202 | the leftmost match starts at the first letter a–g or A–G |
| Fallback.ChordMention | strumspace-api/services/orchestrator.js:202-205 | no match iff the question has no root letter; a match is non-empty, starts with a root letter, and is exactly the question's slice from the leftmost root letter to that root's match end |
| Fallback.FirstQualityOfPrefix | strumspace-api/services/orchestrator.js:202 | cutting the text after the chosen alternative does not change the choice |
| Fallback.SkipSpacesOfPrefix | strumspace-api/services/orchestrator.js:202 | cutting the text after the whitespace run does not change where it ends |
| Fallback.MatchEndOfPrefix | strumspace-api/services/orchestrator.js:202 | the match is unchanged when the text is cut anywhere after it |
| Fallback.ChordMentionIdempotent | strumspace-api/services/orchestrator.js:202-205 | matching the pattern against its own match yields the same match (the reported chord name is exactly one match) |
| Fallback.NoQualityAfter | strumspace-api/services/orchestrator.js:202 | text whose first letter starts no alternative (m, 7, s, d) carries no quality |
| Fallback.LoneRoot | strumspace-api/services/orchestrator.js:202 | a root followed by a letter that is not an accidental, whitespace or a quality start matches as the single root letter |
| Fallback.MentionInBMinorQuestion | strumspace-api/services/orchestrator.js:202-205 | the match in "How do I play B minor?" is "d", the d of "do" |
| Fallback.MentionOfBm | strumspace-api/services/orchestrator.js:202-205 | the match in "Bm?" is "Bm" |
| Fallback.FallbackAI | strumspace-api/services/orchestrator.js:198-222 | the reply is always a fallback with no audio; it names one chord iff the question has a root letter, and that chord is the match and appears in the "Here's how to play" text; otherwise the rephrase text and no chords |
| Fallback.FallbackNamesMatch | strumspace-api/services/orchestrator.js:204-208 | the fallback's single detected chord is the pattern's match |
| Fallback.FallbackDot | strumspace-api/services/orchestrator.js:228-236 | the dot sits at x = 200 + 35·fret and y = 150 + 30·string, copies finger, string and fret, with confidence 0.5 and marked as a fallback |
| Fallback.FallbackCV | strumspace-api/services/orchestrator.js:224-246 | fails exactly for a redirect stub (it has no positions); otherwise one dot per position in order, no guitar detected, and the identity transformation centred at (320, 240) |
| Fallback.FallbackCVRoundTrip | strumspace-api/services/orchestrator.js:224-246 | every fallback dot lies on the grid of 35-pixel fret columns from x = 200 and 30-pixel string rows from y = 150, and reading fret and string back from its pixels, with its finger, gives the record's positions in order |
| Fallback.FallbackCVSeparatesPositions | strumspace-api/services/orchestrator.js:229-230 | two positions on different frets or strings get fallback dots at different pixels |
| Health.CheckDescriptor | strumspace-api/services/orchestrator.js:307-338 | a 200 reply makes the service healthy and sets ping, response time and count 0; another 2xx changes nothing; a thrown probe marks it down and clears the response time; "recovered" is announced iff it was not healthy before and is now, "went down" iff it was healthy and is not |
| Health.Announce | strumspace-api/services/orchestrator.js:325-335 | at most one event, present exactly for a transition |
| Health.CheckServiceHealth | strumspace-api/services/orchestrator.js:307-338 | only the probed service changes, as the descriptor step says, and its event is announced |
| Health.CheckAllServicesHealth | strumspace-api/services/orchestrator.js:289-297 | the AI service is checked first, then the CV service; at most two events, AI's first |
| Health.Pulse | strumspace-api/services/orchestrator.js:340-348 | a ping updates only `lastPing`, and only for a healthy service whose ping did not throw |
| Health.QuickHealthPulse | strumspace-api/services/orchestrator.js:299-305 | pings each service and never changes the overall status |
| Health.RunProbes | strumspace-api/services/orchestrator.js:307-338 | a run of probes announces at most one transition per probe; after a last probe that throws the service is down with no response time; after a last 200 it is healthy with that probe's ping and time and count 0; name, URL, capabilities and retry limit never change |
| Health.AlternatesCons | strumspace-api/services/orchestrator.js:316-336 | an alternating run of transitions stays alternating when preceded by the transition that leaves the starting state |
| Health.AnnouncementsAlternate | strumspace-api/services/orchestrator.js:316-336 | the transitions of any run of probes alternate down/recovered, starting with leaving the initial state, and their count is even iff the final health equals the initial |
| Health.AlertFor | strumspace-api/server.js:338-354 | a "went down" event gives a `service_down` alert and a recovery gives `service_recovered`, for the service's key |
| Metrics.RecordStart | strumspace-api/services/orchestrator.js:379-382 | a started request adds one to the total and appends its time to the window; nothing else changes |
| Metrics.UpdateAverage | strumspace-api/services/orchestrator.js:396-403 | a zero average becomes the sample; otherwise the new average lies between the old one and the sample |
| Metrics.UpdateAverageWeights | strumspace-api/services/orchestrator.js:396-403 | with a non-zero average, each update moves it a fifth of the way to the sample (weights 0.8 and 0.2), so the sample is 5·new − 4·old |
| Metrics.RecordSuccess | strumspace-api/services/orchestrator.js:384-386 | a success adds one to the successes and updates the average; nothing else changes |
| Metrics.RecordFailure | strumspace-api/services/orchestrator.js:388-390 | a failure adds one to the failures; nothing else changes |
| Metrics.AverageStaysInRange | strumspace-api/services/orchestrator.js:396-403 | if the sample and a non-zero average lie in a range, so does the new average |
| Metrics.RecordSuccesses | strumspace-api/services/orchestrator.js:384-386 | a run of successes adds its length to the successes and changes nothing but the successes and the average |
| Metrics.SuccessesKeepAverageInRange | strumspace-api/services/orchestrator.js:396-403 | if every processing time and a non-zero starting average lie in a range, the average after any non-empty run of successes does too |
| Metrics.CountRecent | strumspace-api/services/orchestrator.js:405-409 | the count of times strictly after now − 60000 is at most the window's length |
| Metrics.CalculateRequestsPerMinute | strumspace-api/services/orchestrator.js:405-409 | sets only `requestsPerMinute`, to exactly the number of window entries strictly after now − 60000 |
| Metrics.ResetWindow | strumspace-api/services/orchestrator.js:366-368 | empties the window, so no request counts at any time, and leaves every other field as it was |
| Metrics.StartIsCounted | strumspace-api/services/orchestrator.js:379-382 | a request started now raises the current minute's count by exactly one |
| Metrics.CountRecentMonotone | strumspace-api/services/orchestrator.js:405-409 | the per-minute count never grows as time passes |
| Metrics.WindowEmptiesAfterAMinute | strumspace-api/services/orchestrator.js:405-409 | once every recorded time is a minute old, the count is 0 |
| Metrics.StartThenFinishBalanced | strumspace-api/services/orchestrator.js:60-110 | starting and then finishing a request, either way, keeps successes + failures = total |
| Orchestrator.New | strumspace-api/services/orchestrator.js:7-51 | a fresh orchestrator has both services unknown, no requests counted, and the given table |
| Orchestrator.AskAI | strumspace-api/services/orchestrator.js:118-155 | a non-healthy AI service gives the question fallback untouched; otherwise the live reply if one came, else the fallback; only the AI retry state changes |
| Orchestrator.ChordFor | strumspace-api/services/orchestrator.js:68-72 | no detected chords means no lookup; a found entry is stored under the first chord's normalised name, and a present key is always found |
| Orchestrator.AskCV | strumspace-api/services/orchestrator.js:158-195 | fails exactly when no live reply came and the record is a stub; a live reply is passed through; without one the result is the fallback response for the record; only the CV retry state changes |
| Orchestrator.HandleRequestError | strumspace-api/services/orchestrator.js:442-453 | the error reply carries the fixed error and message texts, the request id and the time |
| Orchestrator.BroadcastsFor | strumspace-api/services/orchestrator.js:249-269 | the coordinated response always, then the chord highlight exactly when a record was found |
| Orchestrator.ProcessUserRequest | strumspace-api/services/orchestrator.js:54-115 | the reply carries the AI answer and the looked-up record. The CV tracker is consulted iff a record was found and a frame was sent. The request fails iff that consultation fails. Only retry state and metrics change: the start is recorded, then a completion records a success with processing time end − start (updating the average) and broadcasts, while a failure records a failure, gives the error reply and broadcasts nothing |
| Orchestrator.RequestKeepsMetricsBalanced | strumspace-api/services/orchestrator.js:60-110 | each request keeps successes + failures = total |
| Orchestrator.CVOnlyWithChordAndImage | strumspace-api/services/orchestrator.js:75-79 | without a record or without a frame the CV service is untouched and no dots are returned |
| Orchestrator.FailsOnlyOnStubFallback | strumspace-api/services/orchestrator.js:75-115 | a request fails iff a frame was sent, the record is a redirect stub, and the CV call produced no live reply |
| Orchestrator.CVDownGivesFallbackDots | strumspace-api/services/orchestrator.js:158-195 | with the CV tracker not healthy, a full record's dots are its fallback dots, one per position |
| Orchestrator.CVExhaustedGivesFallbackDots | strumspace-api/services/orchestrator.js:158-195 | with a healthy CV tracker whose every attempt fails, a request with a frame and a full record still completes, with one fallback dot per position, the tracker still healthy and its retry count at maxRetries + 1 |
| Orchestrator.DownServiceIsSkipped | strumspace-api/services/orchestrator.js:121-155 | after a failed probe the next call makes no attempt |
| Orchestrator.RecoveryRestoresBudget | strumspace-api/services/orchestrator.js:316-321 | a successful probe restores the full retry budget |
| Orchestrator.AIDownUsesQuestionMatch | strumspace-api/services/orchestrator.js:65-72 | with the AI service down, the reply's text and record come from the question's pattern match |
| Orchestrator.AIDownLooksUpMatch | strumspace-api/services/orchestrator.js:65-72 | with the AI service down, the record looked up is the table entry under the normalised match |
| Orchestrator.QuestionAboutBMinorYieldsDMajor | strumspace-api/services/orchestrator.js:65-72 | with both services down, "How do I play B minor?" is answered with the D major record |
| Orchestrator.BmOver | strumspace-api/services/orchestrator.js:65-80 | with both services down, a question whose first chord mention has a full record, asked with a frame, gets that record and one fallback dot per position |
| Orchestrator.BmWithBothServicesDown | strumspace-api/services/orchestrator.js:65-80 | on the real table, "Bm?" returns six dots, the first at (270, 180) |
| Orchestrator.LiveStubAnswerFails | strumspace-api/services/orchestrator.js:75-110 | a live answer naming a stub, with a frame sent and the CV tracker down, fails the request and counts one failure |
| Orchestrator.AMajorWithCVDownFails | strumspace-api/services/orchestrator.js:75-110 | on the real table, a live answer naming "Amajor" with the CV tracker down fails the request |
| Orchestrator.Difficulties | strumspace-api/services/orchestrator.js:429 | one difficulty per table value, in order, with none for a stub |
| Orchestrator.GetSystemStatus | strumspace-api/services/orchestrator.js:412-432 | reports the overall status, the services and metrics as they are, the table size, and the table's difficulties in order of first occurrence, each once |
| Seqs.Distinct | strumspace-api/services/orchestrator.js:429 | `[...new Set(s)]`: every element of the input exactly once, ordered by first occurrence, starting with the input's first element |
| Orchestrator.StatusAfterRequest | strumspace-api/services/orchestrator.js:412-432 | a request leaves the table size, the difficulties and the overall status unchanged, adds one to the reported total, and keeps the reported counters balanced |
| Server.GetChord | strumspace-api/server.js:371-385 | found iff the normalised name is a key, returning the entry unresolved; otherwise a 404 listing every key |
| Server.GetChordIgnoresCaseAndSpace | strumspace-api/server.js:372 | names with the same normalisation get the same reply |
| Server.GetChordServesEveryKey | strumspace-api/server.js:371-385 | every normalised key is served with its own entry |
| Server.ListChords | strumspace-api/server.js:388-400 | with no (or an empty) difficulty, every value, stubs included; with one, exactly the full records of that difficulty, in order; `total` is the list's length |
| Server.DifficultyListsDisjoint | strumspace-api/server.js:392-394 | lists for two different difficulties share no record |
| Server.SearchValues | strumspace-api/server.js:410-413 | the scan throws iff a stub is among the values; otherwise it keeps the records whose name or display name contains the query |
| Server.SearchChords | strumspace-api/server.js:403-420 | a missing or empty query gives a 400; otherwise the scan crashes iff the table has a stub; a result reports the lower-cased query and its count |
| Server.SearchOnTableCrashes | strumspace-api/server.js:403-413 | on the real table, every non-empty query crashes on the stubs |
| Server.Progressions | strumspace-api/server.js:426-432 | exactly the keys C, G, D, A and E have a four-name progression |
| Server.LookupPresent | strumspace-api/server.js:435-437 | one entry per name the table holds, in the names' order: the k-th entry is the table's value for the k-th present name; each comes from the table under one of the names |
| Server.LookupPresentAppend | strumspace-api/server.js:435-437 | the entries for two name lists joined are the first list's entries followed by the second's |
| Server.AbsentNameIsDropped | strumspace-api/server.js:435-437 | a name the table lacks contributes no entry: removing it from the list changes nothing |
| Server.GetProgression | strumspace-api/server.js:423-444 | the key is upper-cased; the entries are exactly the table values for the names of that key's progression, or of G's when the key has none; at most four; `available` iff there is at least one |
| Server.ProgressionIgnoresCase | strumspace-api/server.js:424 | keys with the same upper-casing get the same reply |
| Server.UnknownKeyFallsBackToG | strumspace-api/server.js:434 | an unknown key gets G's progression |
| Server.ProgressionNamesAreLong | strumspace-api/server.js:426-432 | every progression names chords by their long names |
| Server.ProgressionsAreStubs | strumspace-api/server.js:434-437 | where long names hold only stubs, every progression entry is a stub |
| Server.FirstNamePresentMeansAvailable | strumspace-api/server.js:434-443 | if a progression's first name is a key, the progression is available |
| Server.StubsAppend | strumspace-api/server.js:28-332 | "long names hold only stubs" survives concatenating two tables |
| Server.TableLongNamesAreStubs | strumspace-api/server.js:28-332 | in the real table every long name present is a stub |
| Server.TableProgressionsAreAvailableStubs | strumspace-api/server.js:423-444 | on the real table every key's progression is available and consists of stubs only |
| Server.ProcessRequestRoute | strumspace-api/server.js:447-472 | a missing or empty question or user id gives a 400 with the orchestrator unchanged and no events; otherwise the orchestrator's request is run with the body's fields and the defaulted session id, and its state, reply and events are the route's |
| Server.RequestOf | strumspace-api/server.js:457-462 | the orchestrator request carries the body's question, frame and user id, and the session id or its `session_` default |
| Server.RouteKeepsMetricsBalanced | strumspace-api/server.js:447-472 | every route call, rejected or answered, keeps successes + failures = total |
| Server.HighlightCarriesSession | strumspace-api/server.js:457-462 | the chord highlight of an answered request carries the body's session id, or `session_` followed by the clock when none was sent |
| Server.RegisterRoute | strumspace-api/server.js:480-502 | a missing name or URL gives a 400 and changes nothing; otherwise the registry is exactly the registration of the URL and the capabilities (default none) under the name, so nothing else changes |
| Server.RegisterRouteKeepsHealth | strumspace-api/server.js:480-502 | registration changes no service's status or retry count, so the overall status stays |
| Server.RegisterRouteIdempotent | strumspace-api/server.js:480-502 | sending the same registration again at the same time gives the same registry and reply |
| JsValues.SessionOr | strumspace-api/server.js:461 | a non-empty session id is kept; otherwise `session_` followed by the clock as JavaScript prints it: digits with no leading zero, reading back as the clock |
| Text.Decimal | strumspace-api/server.js:461 | a number prints as digits with no leading zero, starting with 0 only for 0 |
| Text.CanonicalDecimalIsUnique | strumspace-api/server.js:461 | a digit string without a leading zero is the printing of the number it reads as, so the default session suffix is determined by the clock |
| ChordExtractor.RawScore | voicetochord/chord-extractor.js:222-227 | the unclamped score lies in 30..110 hundredths, at least 100 exactly when mention and question word combine with length ≥ 5 |
| ChordExtractor.Confidence | voicetochord/chord-extractor.js:222-229 | the clamped confidence lies in 0.30..0.99; it is 0.99 iff mention, question word and length ≥ 5 all hold, and otherwise equals the raw score |
| ChordExtractor.CalculateConfidence | voicetochord/chord-extractor.js:216-230 | the confidence always lies in 0.30..0.99 |
| ChordExtractor.CapBindsExactly | voicetochord/chord-extractor.js:216-230 | the 0.99 cap applies iff the chord is mentioned, a question word appears and the transcript has at least 5 characters; otherwise the raw score stands (the 0.1 floor never applies) |
| ChordExtractor.ConfidenceMonotone | voicetochord/chord-extractor.js:224-229 | adding a mention or a question word never lowers the confidence |
| ChordExtractor.ConfidenceMonotoneInLength | voicetochord/chord-extractor.js:226-229 | a longer transcript never gets a lower confidence |
| ChordExtractor.TranscriptOfChordMentionsIt | voicetochord/chord-extractor.js:219 | a transcript equal to the chord's name mentions it |
| ChordExtractor.FailurePair | voicetochord/chord-extractor.js:120-136 | a failure sends "Error: " and the message to the audio server and the bare message to the API server |
| ChordExtractor.AnswerPair | voicetochord/chord-extractor.js:80-118 | the audio server gets the chord, or "Unknown" if it is empty; the API server gets the chord with its confidence iff the gate passes, else "No chord detected" |
| ChordExtractor.AnalyzeAudio | voicetochord/chord-extractor.js:64-137 | two messages, both with the same session id. The chord is forwarded iff transcription and extraction succeed and the gate passes, with the computed confidence and the transcript. An answered extraction sends the audio server the chord, or "Unknown" if empty, with the transcript, and a gated-out one sends "No chord detected". A failed stage's message is prefixed with that stage's name, an error is reported iff a stage failed, and then the audio server gets "Error: " and the message |
| ChordExtractor.UnknownIsNotForwarded | voicetochord/chord-extractor.js:88-118 | "Unknown", and any answer containing "error" in any case, is reported as not detected |
| SongCatalogue.FilteredSongs | frontend/src/pages/Catalog.jsx:9-13 | an order-preserving subsequence of the songs, keeping a song iff the lower-cased search occurs in its lower-cased title or artist and the level is "All" or equal |
| SongCatalogue.EmptySearchShowsAll | frontend/src/pages/Catalog.jsx:9-13 | an empty search with "All" shows the whole catalogue |
| SongCatalogue.LevelNarrowsAll | frontend/src/pages/Catalog.jsx:12 | a specific level shows a subsequence of what "All" shows for the same search |
| SongCatalogue.UnknownLevelShowsNothing | frontend/src/pages/Catalog.jsx:12 | a level no song has shows nothing |
| SongCatalogue.SearchIgnoresCase | frontend/src/pages/Catalog.jsx:10-11 | lower-casing the search changes nothing |
| SongCatalogue.MockUnofferedLevelIsEmpty | frontend/src/pages/Catalog.jsx:30-34 | in the catalogue data, a level other than the four offered shows nothing |
| Overlay.TruncDiv | backend/cv/utils/overlay.py:22-23 | Python's `int(a / b)`: the quotient rounded toward zero |
| Overlay.Place | backend/cv/utils/overlay.py:19-23 | the dot's x is x1 + (6 − string)·(x2 − x1)/5 and its y is (y1 + y2)/2, each rounded toward zero: for a non-negative numerator within one unit below, for a negative one within one unit above |
| Overlay.DotsFor | backend/cv/utils/overlay.py:10-26 | at most one dot per position; when every position is drawable, the i-th dot is the i-th position's placement; when none is, no dots |
| Overlay.DotsForAppend | backend/cv/utils/overlay.py:10-26 | dots come out in position order: the dots of two lists are those of the first, then the second |
| Overlay.OverlayDots | backend/cv/utils/overlay.py:3-28 | a chord missing from the data draws nothing; otherwise the dots of its positions |
| Overlay.SixthStringAtLeftEdge | backend/cv/utils/overlay.py:19-22 | string 6 lands exactly on the box's left edge |
| Overlay.FirstStringAtRightEdge | backend/cv/utils/overlay.py:19-22 | string 1 lands exactly on the box's right edge |
| Overlay.DotInsideBox | backend/cv/utils/overlay.py:15-23 | for a box of positive width and a string from 1 to 6, the dot lies inside the box, for any integer coordinates |
| Overlay.HigherStringIsFurtherLeft | backend/cv/utils/overlay.py:19-22 | a higher string number never places the dot further right |
| Overlay.TruncDivMonotone | backend/cv/utils/overlay.py:22 | truncated division is monotone in the dividend |
| Tracker.Join | backend/cv/utils/tracker.py:17-20 | the join of two boxes covers both, and each side is one of theirs |
| Tracker.Merge | backend/cv/utils/tracker.py:9-22 | no boxes gives none; otherwise a box covering every input whose sides are each attained by some input (least left/top, greatest right/bottom) |
| Tracker.ExtremesDetermineBox | backend/cv/utils/tracker.py:17-20 | two boxes that cover the same inputs and attain their sides from them are equal |
| Tracker.MergeIgnoresOrder | backend/cv/utils/tracker.py:17-20 | the merge depends only on the set of boxes, not their order or repetition |
| Tracker.MergeOfPermutation | backend/cv/utils/tracker.py:17-20 | any permutation of the boxes merges to the same box |
| Tracker.MergeOfWellFormed | backend/cv/utils/tracker.py:17-22 | merging well-formed boxes gives a well-formed box |
| Tracker.MergeAbsorbs | backend/cv/utils/tracker.py:17-22 | joining the merged box with any input box gives the merged box back |

## Left out

- Transport and I/O are left out: Express routing, socket.io emits, EventEmitter delivery, HTTP calls and logging. Remote results are scripts of outcomes, probe results or `Result` values, and emitted events are returned lists.
- Timers, delays, `Date.now`, `process.uptime`, `Math.random` and request-id generation are left out. Times and the request id are inputs. The `setInterval` schedules (30 s health, 10 s pulse, 60 s window reset, 10 s rate) are not modelled; the operations they call are.
- Concurrency is not modelled: requests and health checks are treated as sequential. The source shares `retryCount` between concurrent requests.
- Retry.CallWithRetry: a script shorter than the number of attempts counts the missing attempts as failures (timeouts). The request and probe timeouts themselves are not modelled.
- Case mapping (`toLowerCase`, `toUpperCase`, the regex `i` flag) covers ASCII letters only. Lengths count characters rather than UTF-16 code units.
- JSON shape errors are not modelled: non-string body fields and object keys inherited from `Object.prototype`. A live reply missing `chord_positions` is also not modelled; its dots are the reply's list.
- Health.CheckDescriptor: a probe reply with a 2xx status other than 200 changes nothing, since axios throws only for statuses outside 2xx. `lastPing` and response time come from the probe's recorded times.
- ChordExtractor.CalculateConfidence: confidence is computed in exact hundredths. The source sums IEEE doubles, e.g. 0.5 + 0.3 + 0.1 gives 0.9000000000000001; no clamping decision differs.
- Metrics.UpdateAverage: the moving average uses exact reals, not IEEE doubles.
- Overlay.DotsFor and Tracker.Merge: box coordinates are integers, and division is exact before truncation. The detector's floating-point boxes and the cv2 drawing are left out, and the frame is not returned.
- The detector call (YOLO), transcription (Whisper) and chord extraction (GPT) are foreign calls. Their results are inputs.
- The `/api/health`, `/api/system-status` and socket handlers only wrap modelled operations, and are left out.
- In the transcribed `chordDatabase`, a record that omits `isBarreChord` has it as false. The source leaves the field undefined, and nothing in the core reads it.
