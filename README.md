# Travel-booking chat assistant: a verified model of its dialogue core

The system is a chat endpoint that walks a user through booking a
flight, a hotel or a car. It asks, in order:

- whether to book at all;
- what to book;
- which source system to use (Amadeus or Farelogix);
- for flights, whether the trip is one-way or a round trip, then the
  departure date and, for a round trip, the return date.

It then reads out a scripted workflow one step at a time. The user moves
through it with "done", "back" and "restart". Input that matches no
expected answer is re-prompted. During the opening question, such input
goes to a generative language model instead.

The model covers the whole decision logic of `server.js`, in eight modules:

- **`Wrappers`**: the `Option` and `Result` types the other modules share.
- **`Text`**: the JavaScript string operations the code relies on.
  - `trim` with the exact ECMAScript white-space set, and ASCII
    `toLowerCase`/`toUpperCase`.
  - `includes`, `parseInt` on digit strings, and `${n}`.
- **`Classify`**: `normalizeInput` and the three first-match-wins keyword
  classifiers.
- **`Dates`**: `parseDate`, `convertToDate` and `isReturnDateValid`.
  - The JavaScript `Date` constructor is modelled explicitly: years 0–99
    map into 1900–1999, out-of-range months carry into the year, and
    out-of-range days roll over across months.
  - On top of that, the round-trip check of `convertToDate` is
    characterised exactly in calendar terms.
- **`Workflows`**: the `WORKFLOWS` catalog, with its step texts as stored.
- **`Dialogue`**: a session record as a value, and the `/chat` handler
  body as a transition function.
  - `Transition(state, message, currentYear, llm)` returns the new record,
    the reply and whether the session is to be reset.
  - The function rests on the per-phase invariant `Inv`.
- **`DialogueLaws`**: what that transition guarantees.
  - It keeps the invariant and records the history.
  - Each phase has its outcomes, including the date validation order and
    the guided-flow commands.
  - There are whole conversations.
- **`Sessions`**: the imperative layer.
  - A `Session` class holds the mutable record, and its methods update the
    fields in place branch by branch.
  - A `SessionStore` class holds `map<string, Session>`, with
    `GetSession`, `ResetSession` and the endpoint method `Chat`.
  - Each of these methods is proved to perform exactly the `Dialogue`
    transition.

Replies are modelled by kind (`Reply`), together with the values they
interpolate: the workflow step shown, the flow, the source and the dates.

The language model behind `getFreeChat` is a parameter `llm`.
- It receives the message and `history.slice(-6)`.
- It returns `Some(answer)` or `None` (the API failed).
- On `None` the handler uses the fixed fallback text.

The current year used by `parseDate` is the parameter `currentYear`.

Where the code and its description differ, the model follows the code:

- **Restart.** A restart leaves a fresh default record in the store.
  - The reply is recorded on the discarded record.
  - The `state` returned with the reply is read from that discarded
    record too, so it still shows the guided flow.
  - `RestartExactly` and `SessionStore.Serve` state both halves.
- **Separators of month-name dates.** `parseDate` accepts a one- or
  two-digit day and any mix of white space, `/` and `-` as separators, not
  only uniform ones.
- **Two-digit years.** `convertToDate` rejects every year below 100, because
  `new Date` moves years 0–99 into the 1900s.
- **The `YYYY-MM-DD` shape of `convertToDate`.** It is never reached from the
  handler, since `parseDate` rewrites that shape first.
- **The "no"/"not" branch of the intent phase.** It is the same as the
  branch that follows it.
- **The first message.** Whatever it says, the first message of a session gets the welcome and
  moves to the intent question; it is never read as a booking request, even when it names
  a flight (`GreetingOutcome`).
- **The final fallback branch of the handler.** It cannot be reached,
  because every phase has its own branch.

## Model

| member | source | states |
|---|---|---|
| Text.Lower | server.js:108-110 | same length, every character mapped by ASCII lower-casing |
| Text.Upper | server.js:139 | same length, every character mapped by ASCII upper-casing |
| Text.TrimStart | server.js:109 | definition of the leading half of `trim`; its properties are in TrimStartSpec |
| Text.TrimEnd | server.js:109 | definition of the trailing half of `trim`; its properties are in TrimEndSpec |
| Text.Trim | server.js:109 | definition of `trim`; its properties are in TrimSpec, TrimIdempotent and TrimKeepsSolidEnds |
| Text.TrimStartSpec | server.js:108-110 | result is a suffix with no leading white space, and everything dropped is white space |
| Text.TrimEndSpec | server.js:108-110 | result is a prefix with no trailing white space, and everything dropped is white space |
| Text.TrimSpec | server.js:108-110 | `trim` removes exactly a white-space prefix and suffix, and leaves no white space at either end |
| Text.TrimKeepsSolidEnds | server.js:139 | a string with non-white-space ends is already trimmed |
| Text.TrimIdempotent | server.js:108-110 | trimming twice is trimming once |
| Text.UpperKeepsNonLower | server.js:139 | upper-casing leaves a string without lower-case letters unchanged |
| Text.UpperConcat | server.js:139 | upper-casing distributes over concatenation |
| Text.Contains | server.js:113 | definition of `includes`; characterised by ContainsIffOccurs |
| Text.ContainsIffOccurs | server.js:113 | `includes` holds exactly when the needle occurs at some index |
| Text.DecimalValue | server.js:173-175 | `parseInt` of at most 1, 2, 3 or 4 digits is below 10, 100, 1000 or 10000 |
| Text.Decimal | server.js:155-156 | `${n}` is a non-empty digit string |
| Text.DecimalRoundTrip | server.js:155-156 | `parseInt` of the printed number gives the number back |
| Text.DecimalFourDigits | server.js:155-156 | a year from 1000 to 9999 prints as four digits |
| Classify.NormalizeInput | server.js:108-110 | the normalised message has no upper-case letter and no white space at either end |
| Classify.NormalizeIdempotent | server.js:108-110 | normalising twice is normalising once |
| Classify.NormalizeIgnoresCase | server.js:108-110 | upper-casing the input first does not change the normalised message |
| Classify.AnyKeyword | server.js:115 | definition of an or of `includes` tests; characterised by AnyKeywordIff |
| Classify.AnyKeywordIff | server.js:115 | an or of `includes` tests holds exactly when one keyword occurs |
| Classify.FirstMatch | server.js:112-129 | definition of a list of rules tried in order; characterised by FirstMatchWins |
| Classify.FirstMatchWins | server.js:112-129 | a rule list yields the result of the first matching rule, and nothing exactly when no rule matches |
| Classify.DetectBookingType | server.js:112-117 | flight if "flight" occurs; else hotel if "hotel" occurs; else car if "car" or "rental" occurs; else nothing (each as an if-and-only-if) |
| Classify.DetectSource | server.js:119-123 | Amadeus if "amadeus" occurs; else Farelogix if "farelogix" or "flx" occurs; else nothing |
| Classify.DetectFlightType | server.js:125-129 | one-way if "one" occurs; else round trip if "round" or "return" occurs; else nothing |
| Classify.FlightBeatsHotel | server.js:113-114 | a message naming both a flight and a hotel is read as a flight |
| Dates.ParseDate | server.js:138-159 | definition of `parseDate`; characterised by ParseOnlyFourShapes, ParseDateShape, ParseDateIdempotent and ParseNamedDate |
| Dates.Rewrite | server.js:141-158 | definition of the rewriting after trim and upper-casing; its properties are in RewriteShape |
| Dates.MonthNumber | server.js:162-166 | a month abbreviation maps to its position 1 to 12 in the month table |
| Dates.DayDigits | server.js:152 | the day field is the run of leading digits, at most two long, that ends at a non-digit or at the second digit |
| Dates.MatchNamed | server.js:152 | a named-date match has a 1–2 digit day, a month abbreviation and a 4-digit year when present, and the day, separators, month and year make up the whole input; the strict form always has a year |
| Dates.MatchNamedIff | server.js:152 | the anchored month-name pattern matches exactly the strings of the shape day, separator, month and optionally separator and year |
| Dates.DaysInMonth | server.js:203-209 | months have 28 to 31 days, with 29 exactly for February of a Gregorian leap year |
| Dates.DaysInMonthTable | server.js:203-209 | the whole month table: 28 days exactly for February outside leap years, 30 exactly for April, June, September and November, 31 for the other months |
| Dates.NewDate | server.js:203 | definition of `new Date(year, month - 1, day)` by year mapping and rollover; characterised by NewDateRoundTrip |
| Dates.Rollover | server.js:203 | the `Date` day normalisation always lands on a real calendar day |
| Dates.RolloverForward | server.js:203 | the normalisation never moves a date backwards, and a day past the end of its month lands in a strictly later month |
| Dates.NewDateRoundTrip | server.js:203-209 | `new Date(y, m, d)` reads back the same components exactly when the year is at least 100 and the day exists |
| Dates.ScanDate | server.js:171-200 | definition of the format check of `convertToDate`; characterised by ConvertToDateSpec and CanonicalScans |
| Dates.ConvertToDate | server.js:161-214 | definition of `convertToDate`; characterised by ConvertToDateSpec |
| Dates.CheckCalendar | server.js:203-213 | definition of the round-trip check; characterised by ConvertToDateSpec and NewDateRoundTrip |
| Dates.ConvertToDateSpec | server.js:161-214 | the invalid-format error occurs exactly when no shape matches; success occurs exactly when the date exists (month 1–12, day within the month, year at least 100); success returns the parsed components |
| Dates.ParseOnlyFourShapes | server.js:138-159 | `parseDate` gives a result exactly when the trimmed, upper-cased input is `DD/MM/YYYY`, `YYYY-MM-DD` or a month-name date; anything else gives null |
| Dates.ParseDateShape | server.js:138-159 | every parse result is `DD/MM/YYYY` or `D[D] MON YYYY` with single spaces |
| Dates.RewriteShape | server.js:141-158 | the rewrite step yields only those two shapes |
| Dates.CanonicalScans | server.js:171-198 | both canonical shapes are accepted by `convertToDate`'s format check |
| Dates.ParsedDateNeverBadFormat | server.js:138-200 | `convertToDate` of a parse result can only fail with the calendar error, never the format error |
| Dates.CanonicalIsNormal | server.js:139 | a canonical date is unchanged by trimming and upper-casing |
| Dates.ParseCanonicalUnchanged | server.js:138-159 | parsing a canonical date returns it unchanged, whatever the current year |
| Dates.ParseDateIdempotent | server.js:138-159 | parsing a parse result gives the same result |
| Dates.ParseKeepsDayMonthYear | server.js:142-143 | a `DD/MM/YYYY` input is returned as is |
| Dates.ParseSwapsYearMonthDay | server.js:146-149 | `YYYY-MM-DD` becomes `DD/MM/YYYY`, and both spellings denote the same date for `convertToDate` |
| Dates.ParseNamedDate | server.js:152-156 | a month-name date with any of the three separators and any letter case becomes `D MON YYYY`, and a missing year becomes the current year |
| Dates.Before | server.js:221 | definition of `ret > dep` on dates as lexicographic (year, month, day); used by ReturnDateValidMeaning |
| Dates.IsReturnDateValid | server.js:216-225 | definition of `isReturnDateValid`; characterised by ReturnDateValidMeaning |
| Dates.ReturnDateValidMeaning | server.js:216-225 | a return date is accepted exactly when both dates exist and the return comes strictly later |
| Dates.ReturnDateNeedsBoth | server.js:218 | a missing date is never accepted |
| Dates.ReturnDateIrreflexive | server.js:216-225 | a date is never a valid return date for itself |
| Dates.ReturnDateTransitive | server.js:216-225 | accepted pairs chain, and are never accepted reversed |
| Dates.ConvertDayMonthYear | server.js:171-176 | `convertToDate` of `DD/MM/YYYY` succeeds exactly when the day exists |
| Dates.ConvertNamed | server.js:191-198 | `convertToDate` of `D MON YYYY` succeeds exactly when the day exists |
| Dates.SixteenthOfJanuaryConverts | server.js:171-176 | 16/01/2026 is accepted as 16 January 2026 |
| Dates.SixteenJanConverts | server.js:191-198 | 16 JAN 2026 is accepted as the same day |
| Dates.NoThirtyFirstOfFebruary | server.js:203-213 | 31/02/2026 fails with the calendar error |
| Dates.LeapDayIn2024 | server.js:203-213 | 29/02/2024 is accepted as 29 February 2024 |
| Dates.TwoDigitYearsRejected | server.js:203-209 | 01/01/0050 fails with the calendar error |
| Dates.ReturnDateExamples | server.js:216-225 | 16/01/2026 then 20/01/2026 is accepted; the reverse is not |
| Workflows.DateRange | server.js:407 | the range is the departure date, then the separator, then the return date |
| Workflows.FlightTexts | server.js:20-41 | definition of the flight step texts as stored, with the dates in step 4; their properties are in DatesOnlyInSearchStep and FlightSearchStep |
| Workflows.FixedTexts | server.js:43-76 | definition of the hotel and car step texts as stored; their length is fixed by StepCount through Steps |
| Workflows.FlightSteps | server.js:21-41 | definition of `WORKFLOWS.FLIGHT[source](dates)`, the flight branch of Steps |
| Workflows.FixedSteps | server.js:43-76 | definition of `WORKFLOWS[flow][source]` for hotels and cars, the other branch of Steps |
| Workflows.StepCount | server.js:19-77 | every workflow has 5 to 9 steps |
| Workflows.Numbered | server.js:19-77 | the k-th step text is the label "Step k: " followed by its text |
| Workflows.Steps | server.js:19-77 | each workflow has as many steps as its catalog entry |
| Workflows.StepsAreLabelled | server.js:19-77 | step i of every workflow starts with the label "Step i+1: " |
| Workflows.DatesOnlyInSearchStep | server.js:21-36 | the date descriptor appears in step 4 of a flight workflow, and no other step depends on it |
| Workflows.FlightSearchStep | server.js:25 | step 4 of a flight workflow is its label, the search text before the dates, the date descriptor and the rest of the search text |
| Workflows.FlightStepsDetermineDates | server.js:25 | different date descriptors give different flight workflows |
| Dialogue.FreeChatText | server.js:227-250 | definition of `getFreeChat` over the parameter `llm`, with the fallback text; its properties are in FreeChatSeesMessage and IntentOutcome |
| Dialogue.Descriptor | server.js:423-427 | definition of the date descriptor of a flight workflow; its properties are in DialogueLaws.SameWorkflow and ReturnOutcome |
| Dialogue.Inv | server.js:263-469 | definition of which fields each phase has set, and the step bound; preserved by DialogueLaws.TransitionKeepsInv |
| Dialogue.Greet | server.js:273-276 | definition of the greeting branch; characterised by DialogueLaws.GreetingOutcome |
| Dialogue.OnBookingIntent | server.js:281-298 | definition of the intent branch; characterised by DialogueLaws.IntentOutcome |
| Dialogue.OnBookingType | server.js:303-313 | definition of the booking-type branch; characterised by DialogueLaws.BookingTypeOutcome |
| Dialogue.OnSource | server.js:318-336 | definition of the source branch; characterised by DialogueLaws.SourceOutcome |
| Dialogue.OnFlightType | server.js:341-356 | definition of the flight-type branch; characterised by DialogueLaws.FlightTypeOutcome |
| Dialogue.OnDepartureDate | server.js:361-385 | definition of the departure-date branch; characterised by DialogueLaws.DepartureOutcome |
| Dialogue.OnReturnDate | server.js:390-415 | definition of the return-date branch; characterised by DialogueLaws.ReturnOutcome |
| Dialogue.OnGuided | server.js:420-460 | definition of the guided branch; characterised by DialogueLaws.GuidedBranch |
| Dialogue.Dispatch | server.js:271-467 | definition of the phase dispatch; its properties are in DialogueLaws.DispatchKeepsInv and TransitionThroughBranch |
| Dialogue.Transition | server.js:263-469 | definition of one request on a record; its properties are in DialogueLaws.TransitionKeepsInv, RestartExactly and TransitionFollowsGraph |
| Dialogue.Stored | server.js:454-455 | definition of what the store keeps after a request, the default after a restart; its properties are in DialogueLaws.RestartExactly |
| Dialogue.LastSix | server.js:235 | the recent history is the last min(6, n) entries |
| Dialogue.ActiveSteps | server.js:420-428 | a configured session's workflow has the catalog's length for its flow and source |
| DialogueLaws.InvIgnoresHistory | server.js:266 | the record invariant does not depend on the history |
| DialogueLaws.IntentKeepsInv | server.js:281-298 | the intent phase keeps the invariant and the history |
| DialogueLaws.BookingTypeKeepsInv | server.js:303-313 | the booking-type phase keeps the invariant and the history |
| DialogueLaws.SourceKeepsInv | server.js:318-336 | the source phase keeps the invariant and the history |
| DialogueLaws.FlightTypeKeepsInv | server.js:341-356 | the flight-type phase keeps the invariant and the history |
| DialogueLaws.DepartureKeepsInv | server.js:361-385 | the departure-date phase keeps the invariant and the history |
| DialogueLaws.ReturnKeepsInv | server.js:390-415 | the return-date phase keeps the invariant and the history |
| DialogueLaws.GuidedKeepsInv | server.js:420-460 | the guided flow keeps the invariant, including the step bound, and the history |
| DialogueLaws.DispatchKeepsInv | server.js:271-467 | every phase branch keeps the invariant and the history |
| DialogueLaws.TransitionKeepsInv | server.js:263-469 | a request keeps the invariant, both for the handled record and for what the store keeps, and appends exactly the user message and then the reply to the history |
| DialogueLaws.DefaultStateValid | server.js:84-97 | a new record is in the greeting phase with nothing chosen, an empty history, and the invariant |
| DialogueLaws.TransitionThroughBranch | server.js:263-469 | the reply, the reset flag and the snapshot are those of the phase branch run after the message is recorded |
| DialogueLaws.ThroughGuided | server.js:264-469 | in the guided flow a request is the guided branch run on the record with the message appended, and appending keeps the invariant, the snapshot and the workflow |
| DialogueLaws.GuidedAdvances | server.js:432-436 | done before the last step moves to the next step and shows it, within the same workflow |
| DialogueLaws.GuidedCompletes | server.js:432-446 | done at the last step completes the booking, clears every choice and returns to the intent question |
| DialogueLaws.GuidedStepsBack | server.js:447-450 | back after the first step moves one step back and shows it, within the same workflow |
| DialogueLaws.GuidedStaysAtFirst | server.js:447-453 | back at the first step changes nothing and shows step 0 |
| DialogueLaws.GuidedRestarts | server.js:454-456 | restart asks for a reset and changes nothing else |
| DialogueLaws.GuidedRepeats | server.js:457-459 | any other message repeats the current step |
| DialogueLaws.GuidedBranch | server.js:420-460 | the guided branch has exactly those six outcomes, in command order; it keeps the invariant, the history and, while guided, the workflow; the reset flag is raised exactly for restart |
| DialogueLaws.GuidedOutcome | server.js:420-460 | done advances or, after the last step, completes the booking and clears every choice; otherwise back steps back or stays at step 0; otherwise restart resets; otherwise the current step is repeated. Commands are checked in that order |
| DialogueLaws.SameWorkflow | server.js:420-428 | records that differ only in step and history follow the same workflow |
| DialogueLaws.GuidedBranchShowsStep | server.js:432-459 | each step the guided branch shows is the step its new record is at |
| DialogueLaws.GuidedShowsCurrentStep | server.js:436-458 | each step shown by the guided flow is the step the session is now at |
| DialogueLaws.DoneThenBack | server.js:432-451 | done then back returns to the same step |
| DialogueLaws.BackThenDone | server.js:432-451 | back then done returns to the same step |
| DialogueLaws.BackAtFirstStepIsIdempotent | server.js:447-453 | back at step 0 changes nothing, however often it is repeated |
| DialogueLaws.GreetingOutcome | server.js:273-276 | the first message gets the welcome, and the phase moves to the intent question |
| DialogueLaws.IntentOutcome | server.js:281-298 | a detected type sets the flow and asks for the source; a booking word asks for the type; anything else gets free chat over the recent history and changes nothing |
| DialogueLaws.FreeChatSeesMessage | server.js:227-236 | the model sees at most six entries, and the last one is the current message |
| DialogueLaws.BookingTypeOutcome | server.js:303-313 | a detected type is stored and the source is asked for; otherwise the user is re-prompted and nothing changes |
| DialogueLaws.SourceOutcome | server.js:318-336 | after the source is detected, a flight asks for its type, while a hotel or car enters the guided flow at step 0 and shows it; otherwise the user is re-prompted and nothing changes |
| DialogueLaws.FlightTypeOutcome | server.js:341-356 | a detected flight type is stored and the departure date is asked for; otherwise the user is re-prompted and nothing changes |
| DialogueLaws.DepartureOutcome | server.js:361-385 | the format error and the calendar error are told apart and change nothing; a valid date is stored as parsed, then leads to the return date or to step 0 |
| DialogueLaws.ReturnOutcome | server.js:390-415 | format errors, calendar errors and ordering errors change nothing, and the ordering error shows the departure; an accepted date starts the flow over the date range |
| DialogueLaws.RestartExactly | server.js:454-457 | a reset happens exactly for a restart in the guided flow; the reply and snapshot keep the old record, while the store gets the default |
| DialogueLaws.DatesOnlyAfterValidation | server.js:361-415 | a departure date is only stored as the parse of the message once the calendar accepts it; a return date only once it is later than the departure |
| DialogueLaws.EnteringGuidedFlow | server.js:318-415 | the guided flow is entered only at step 0, and the reply shows that step along with the booking's choices |
| DialogueLaws.TransitionFollowsGraph | server.js:263-469 | every request moves along the phase graph, and the greeting returns only through a reset |
| DialogueLaws.FreeChatExactly | server.js:281-298 | free chat answers exactly the intent-phase messages that name no booking type and contain no booking word |
| DialogueLaws.Run | server.js:263-469 | a conversation keeps the invariant |
| DialogueLaws.RunCons | server.js:263-469 | a conversation is its first request followed by the rest |
| DialogueLaws.DoneStep | server.js:432-446 | one done in the guided flow stores the next step of the same workflow, or after the last step the completed booking with every choice cleared |
| DialogueLaws.FinishingTheWorkflow | server.js:432-446 | one done per remaining step completes the booking and clears every choice |
| DialogueLaws.HotelOrCarConversation | server.js:263-469 | greeting, type, source and one done per step complete a hotel or car booking |
| DialogueLaws.OneWayFlightConversation | server.js:263-385 | greeting, flight, source, one-way and a valid date reach step 0 of the flight workflow for that date |
| DialogueLaws.RoundTripFlightConversation | server.js:263-415 | greeting, flight, source, round trip, a valid departure and a later valid return date reach step 0 of the flight workflow over the range of the two dates |
| DialogueLaws.ResetSessionGreets | server.js:454-457 | after a reset the session greets again |
| Sessions.Session.constructor | server.js:86-94 | a new record holds the default state |
| Sessions.Session.Record | server.js:266 | an entry is appended to the history and nothing else changes |
| Sessions.Session.HandleBookingIntent | server.js:281-298 | the in-place update performs the intent branch |
| Sessions.Session.HandleBookingType | server.js:303-313 | the in-place update performs the booking-type branch |
| Sessions.Session.HandleSource | server.js:318-336 | the in-place update performs the source branch |
| Sessions.Session.HandleFlightType | server.js:341-356 | the in-place update performs the flight-type branch |
| Sessions.Session.HandleDepartureDate | server.js:361-385 | the in-place update performs the departure-date branch |
| Sessions.Session.HandleReturnDate | server.js:390-415 | the in-place update performs the return-date branch |
| Sessions.Session.ForgetBooking | server.js:439-445 | the record returns to the intent question with every choice cleared and step 0, and the history is kept |
| Sessions.Session.HandleGuided | server.js:420-460 | the in-place update, the step increment and decrement, and the field clearing perform the guided branch |
| Sessions.Session.Handle | server.js:271-467 | the phase dispatch performs the `Dialogue` dispatch |
| Sessions.Session.Turn | server.js:264-469 | recording the message, dispatching and recording the reply perform the transition, and keep the invariant |
| Sessions.SessionKey | server.js:257 | definition of the session id, "default" when absent; used by SessionStore.Chat |
| Sessions.SessionStore.constructor | server.js:82 | the store starts empty and valid |
| Sessions.SessionStore.GetSession | server.js:84-97 | a known id returns its record with the store unchanged; a new id inserts a fresh default record; the record seen is the one the next request uses |
| Sessions.SessionStore.ResetSession | server.js:100-103 | the store holds a fresh default record for the id, and every other entry is unchanged |
| Sessions.SessionStore.Advance | server.js:264-469 | the stored record performs the transition, and no other record changes |
| Sessions.SessionStore.Settle | server.js:454-456 | a restart replaces the entry with a fresh default record; otherwise the store is unchanged |
| Sessions.SessionStore.Serve | server.js:263-481 | the reply and snapshot are the transition's; the store holds the transition's result, or a fresh default after a restart; other sessions are untouched |
| Sessions.SessionStore.Chat | server.js:257-481 | a missing or empty message is rejected with nothing changed; otherwise the request is served on its session id, which defaults to "default" |

## Left out

- HTTP plumbing is not modelled: the Express setup, CORS, JSON parsing, the `/reset` and `/health` routes, the listener and the status-code and JSON shapes. `Chat` models the request's `message` and `sessionId` and its two outcomes.
- The generative model call inside `getFreeChat` is the parameter `llm`. The model name, temperature, token limit and system prompt belong to the external service.
- The wall clock behind `new Date().getFullYear()` is the parameter `currentYear`.
- JavaScript `Date` internals are not modelled: timestamps, time zones, and `ret > dep` as milliseconds. The model states calendar arithmetic and the lexicographic order of (year, month, day), which agree on dates that passed the calendar check.
- Exact reply wording, emoji and mis-encoded characters in replies are replaced by the `Reply` kinds. The conversation history therefore stores `Reply` values, and the model sees those values rather than texts. Workflow step texts are kept as stored.
- Concurrency and `async` are not modelled. A request is one sequential read-modify-write.
- The handler's outer `try`/`catch` and its 500 response are not modelled. Under the record invariant no branch can throw, and `getFreeChat` catches its own errors.
- A truthy `message` that is not a string is not modelled; `Chat` takes an optional string.
- Sessions.SessionStore.Chat: a `sessionId` that is null or not a string is not modelled. `None` stands for an absent id, which defaults to "default"; in the source an explicit null becomes a key of its own.
- Text.Lower: ASCII only. JavaScript also lower-cases non-ASCII letters, for example U+212A KELVIN SIGN to `k`, so such a spelling of a keyword is recognised by the source but not by the model.
- Text.Upper: ASCII only. JavaScript also upper-cases U+0131 and U+017F to `I` and `S`, so a month abbreviation spelled with them is accepted by the source but not by the model.
- Sessions.SessionStore.Serve: the reply is recorded on the session's record before the reset rather than after it. The reset never reads that record, so the state is the same either way.
