/**
 * The conversation state machine behind the chat endpoint, as a function
 * from a session's record and one user message to the updated record and
 * the reply. The imperative session store in module Sessions is proved to
 * perform exactly this transition.
 *
 * Replies are modelled by kind and by the values they interpolate (the
 * workflow step shown, the flow, the source, the dates); their fixed
 * wording is not modelled. The language model behind free chat is a
 * parameter: it receives the message and the last six history entries and
 * either answers or fails, and a failure yields the fixed fallback text.
 */
module Dialogue {
  import opened Wrappers
  import opened Text
  import opened Classify
  import opened Dates
  import opened Workflows

  datatype Phase =
    | Greeting
    | AwaitingBookingIntent
    | AwaitingBookingType
    | AwaitingSource
    | AwaitingFlightType
    | AwaitingDepartureDate
    | AwaitingReturnDate
    | GuidedFlow

  /** Which date a date prompt is about. */
  datatype Leg = Departure | Return

  /** The replies of the chat endpoint, by kind, with what they interpolate. */
  datatype Reply =
    | Welcome
    | AskSource(flow: Flow)
    | AskBookingType
    | FreeChat(text: string)
    | RepromptBookingType
    | AskFlightType
    | GuidedStart(flow: Flow, source: Source, firstStep: string)
    | RepromptSource
    | AskDepartureDate(roundTrip: bool)
    | RepromptFlightType
    | DateFormatError(leg: Leg)
    | DateCalendarError(leg: Leg)
    | AskReturnDate
    | OneWayStart(source: Source, date: string, firstStep: string)
    | DateOrderError(departure: string)
    | RoundTripStart(source: Source, dateRange: string, firstStep: string)
    | NextStep(text: string)
    | Completed(flow: Flow)
    | WentBack(text: string)
    | AtFirstStep(text: string)
    | Restarted
    | CurrentStep(text: string)

  /** One entry of the conversation history: the raw user message, or the reply. */
  datatype Entry = UserEntry(text: string) | AssistantEntry(reply: Reply)

  /** A session record. */
  datatype State = State(
    phase: Phase,
    flow: Option<Flow>,
    source: Option<Source>,
    flightType: Option<FlightType>,
    departureDate: Option<string>,
    returnDate: Option<string>,
    step: nat,
    history: seq<Entry>)

  /** The part of the record the endpoint returns next to the reply. */
  datatype Snapshot = Snapshot(
    phase: Phase,
    flow: Option<Flow>,
    source: Option<Source>,
    flightType: Option<FlightType>,
    departureDate: Option<string>,
    returnDate: Option<string>,
    step: nat)

  function SnapshotOf(s: State): Snapshot
  {
    Snapshot(s.phase, s.flow, s.source, s.flightType, s.departureDate, s.returnDate, s.step)
  }

  /** The record a new session starts with. */
  const DefaultState: State := State(Greeting, None, None, None, None, None, 0, [])

  /** The language model: message and recent history to an answer, or a failure. */
  type Llm = (string, seq<Entry>) -> Option<string>

  const FreeChatFallback: string :=
    "I'm here to help you book travel. Would you like to book a flight, hotel, or car?"

  /** `history.slice(-6)`. */
  function LastSix(h: seq<Entry>): (r: seq<Entry>)
    ensures |r| == if |h| < 6 then |h| else 6
    ensures h == h[..|h| - |r|] + r
  {
    if |h| <= 6 then h else h[|h| - 6..]
  }

  /** `getFreeChat(message, history)`. */
  function FreeChatText(llm: Llm, message: string, history: seq<Entry>): string
  {
    match llm(message, LastSix(history))
    case Some(answer) => answer
    case None => FreeChatFallback
  }

  /** A date string as a template literal shows it; a missing one reads "null". */
  function Show(d: Option<string>): string
  {
    match d
    case Some(x) => x
    case None => "null"
  }

  /** The date descriptor of the guided flight flow: the range when a
      return date is set, the departure date alone otherwise. */
  function Descriptor(s: State): string
  {
    if s.returnDate.Some? && s.returnDate.value != "" then DateRange(Show(s.departureDate), s.returnDate.value)
    else Show(s.departureDate)
  }

  /** The workflow a configured session walks through. */
  function ActiveSteps(s: State): (r: seq<string>)
    requires s.flow.Some? && s.source.Some?
    ensures |r| == StepCount(s.flow.value, s.source.value)
  {
    Steps(s.flow.value, s.source.value, Descriptor(s))
  }

  // ---------------------------------------------------------------------
  // Keywords, checked against the normalized message
  // ---------------------------------------------------------------------

  predicate WantsToBook(msg: string)
  {
    Contains(msg, "yes") || Contains(msg, "book") || Contains(msg, "start")
  }

  predicate Declines(msg: string)
  {
    Contains(msg, "no") || Contains(msg, "not")
  }

  predicate SaysDone(msg: string)
  {
    Contains(msg, "done") || Contains(msg, "next") || Contains(msg, "complete") || Contains(msg, "finish")
  }

  predicate SaysBack(msg: string)
  {
    Contains(msg, "back") || Contains(msg, "previous")
  }

  predicate SaysRestart(msg: string)
  {
    Contains(msg, "restart") || Contains(msg, "start over")
  }

  // ---------------------------------------------------------------------
  // The invariant every stored record keeps
  // ---------------------------------------------------------------------

  /** A date the calendar check accepts. */
  predicate ValidDate(d: string)
  {
    ConvertToDate(d).Ok?
  }

  predicate NoDates(s: State)
  {
    s.departureDate.None? && s.returnDate.None?
  }

  /** Nothing of a booking chosen yet. */
  predicate Unconfigured(s: State)
  {
    s.flow.None? && s.source.None? && s.flightType.None? && NoDates(s)
  }

  /** The trip details of a guided booking are complete: a flight has a
      type and a valid departure date, and a return date exactly when it is
      a round trip, later than the departure; other bookings have none. */
  predicate TripComplete(s: State)
  {
    if s.flow == Some(Flight) then
      && s.flightType.Some?
      && s.departureDate.Some? && ValidDate(s.departureDate.value)
      && (s.flightType == Some(RoundTrip) <==> s.returnDate.Some?)
      && (s.returnDate.Some? ==> IsReturnDateValid(s.departureDate, s.returnDate))
    else
      s.flightType.None? && NoDates(s)
  }

  /** What each phase knows: the choices made so far and nothing more, and
      in the guided flow a step inside the active workflow. */
  predicate Inv(s: State)
  {
    && (s.phase != GuidedFlow ==> s.step == 0)
    && match s.phase
      case Greeting => Unconfigured(s)
      case AwaitingBookingIntent => Unconfigured(s)
      case AwaitingBookingType => Unconfigured(s)
      case AwaitingSource =>
        s.flow.Some? && s.source.None? && s.flightType.None? && NoDates(s)
      case AwaitingFlightType =>
        s.flow == Some(Flight) && s.source.Some? && s.flightType.None? && NoDates(s)
      case AwaitingDepartureDate =>
        s.flow == Some(Flight) && s.source.Some? && s.flightType.Some? && NoDates(s)
      case AwaitingReturnDate =>
        && s.flow == Some(Flight) && s.source.Some? && s.flightType == Some(RoundTrip)
        && s.departureDate.Some? && ValidDate(s.departureDate.value) && s.returnDate.None?
      case GuidedFlow =>
        s.flow.Some? && s.source.Some? && TripComplete(s) && s.step < StepCount(s.flow.value, s.source.value)
  }

  // ---------------------------------------------------------------------
  // One branch of the handler per phase
  // ---------------------------------------------------------------------

  /** What one branch does: the new record, the reply, and whether the
      session is to be reset. */
  datatype Move = Move(next: State, reply: Reply, restart: bool)

  function Greet(s: State): Move
  {
    Move(s.(phase := AwaitingBookingIntent), Welcome, false)
  }

  function OnBookingIntent(s: State, message: string, msg: string, llm: Llm): Move
  {
    var detected := DetectBookingType(msg);
    if WantsToBook(msg) || detected.Some? then
      if detected.Some? then Move(s.(flow := detected, phase := AwaitingSource), AskSource(detected.value), false)
      else Move(s.(phase := AwaitingBookingType), AskBookingType, false)
    else if Declines(msg) then Move(s, FreeChat(FreeChatText(llm, message, s.history)), false)
    else Move(s, FreeChat(FreeChatText(llm, message, s.history)), false)
  }

  function OnBookingType(s: State, msg: string): Move
  {
    var bookingType := DetectBookingType(msg);
    if bookingType.Some? then Move(s.(flow := bookingType, phase := AwaitingSource), AskSource(bookingType.value), false)
    else Move(s, RepromptBookingType, false)
  }

  function OnSource(s: State, msg: string): Move
    requires s.flow.Some?
  {
    var source := DetectSource(msg);
    if source.None? then Move(s, RepromptSource, false)
    else if s.flow == Some(Flight) then
      Move(s.(source := source, phase := AwaitingFlightType), AskFlightType, false)
    else
      var t := s.(source := source, phase := GuidedFlow, step := 0);
      Move(t, GuidedStart(s.flow.value, source.value, FixedSteps(s.flow.value, source.value)[0]), false)
  }

  function OnFlightType(s: State, msg: string): Move
  {
    var flightType := DetectFlightType(msg);
    if flightType.Some? then
      Move(s.(flightType := flightType, phase := AwaitingDepartureDate),
           AskDepartureDate(flightType == Some(RoundTrip)), false)
    else Move(s, RepromptFlightType, false)
  }

  function OnDepartureDate(s: State, message: string, currentYear: nat): Move
    requires s.source.Some?
  {
    match ParseDate(message, currentYear)
    case None => Move(s, DateFormatError(Departure), false)
    case Some(date) =>
      if ConvertToDate(date).Err? then Move(s, DateCalendarError(Departure), false)
      else if s.flightType == Some(RoundTrip) then
        Move(s.(departureDate := Some(date), phase := AwaitingReturnDate), AskReturnDate, false)
      else
        Move(s.(departureDate := Some(date), phase := GuidedFlow, step := 0),
             OneWayStart(s.source.value, date, FlightSteps(s.source.value, date)[0]), false)
  }

  function OnReturnDate(s: State, message: string, currentYear: nat): Move
    requires s.source.Some?
  {
    match ParseDate(message, currentYear)
    case None => Move(s, DateFormatError(Return), false)
    case Some(date) =>
      if ConvertToDate(date).Err? then Move(s, DateCalendarError(Return), false)
      else if !IsReturnDateValid(s.departureDate, Some(date)) then
        Move(s, DateOrderError(Show(s.departureDate)), false)
      else
        var range := DateRange(Show(s.departureDate), date);
        Move(s.(returnDate := Some(date), phase := GuidedFlow, step := 0),
             RoundTripStart(s.source.value, range, FlightSteps(s.source.value, range)[0]), false)
  }

  function OnGuided(s: State, msg: string): Move
    requires s.flow.Some? && s.source.Some? && s.step < |ActiveSteps(s)|
  {
    var steps := ActiveSteps(s);
    if SaysDone(msg) then
      if s.step + 1 < |steps| then Move(s.(step := s.step + 1), NextStep(steps[s.step + 1]), false)
      else
        Move(s.(phase := AwaitingBookingIntent, flow := None, source := None, flightType := None,
                departureDate := None, returnDate := None, step := 0),
             Completed(s.flow.value), false)
    else if SaysBack(msg) then
      if s.step > 0 then Move(s.(step := s.step - 1), WentBack(steps[s.step - 1]), false)
      else Move(s, AtFirstStep(steps[s.step]), false)
    else if SaysRestart(msg) then Move(s, Restarted, true)
    else Move(s, CurrentStep(steps[s.step]), false)
  }

  /** The phase dispatch; the handler's final fallback branch is unreachable
      because every phase has its own branch. */
  function Dispatch(s: State, message: string, currentYear: nat, llm: Llm): Move
    requires Inv(s)
  {
    var msg := NormalizeInput(message);
    match s.phase
    case Greeting => Greet(s)
    case AwaitingBookingIntent => OnBookingIntent(s, message, msg, llm)
    case AwaitingBookingType => OnBookingType(s, msg)
    case AwaitingSource => OnSource(s, msg)
    case AwaitingFlightType => OnFlightType(s, msg)
    case AwaitingDepartureDate => OnDepartureDate(s, message, currentYear)
    case AwaitingReturnDate => OnReturnDate(s, message, currentYear)
    case GuidedFlow => OnGuided(s, msg)
  }

  /** One request of the chat endpoint on a session record: record the
      user's message, run the phase's branch, record the reply. When
      `restart` is set the store replaces the session by a fresh one, and
      the reply and the returned snapshot still come from `next`. */
  function Transition(s: State, message: string, currentYear: nat, llm: Llm): Move
    requires Inv(s)
  {
    var withUser := s.(history := s.history + [UserEntry(message)]);
    var m := Dispatch(withUser, message, currentYear, llm);
    m.(next := m.next.(history := m.next.history + [AssistantEntry(m.reply)]))
  }

  /** The record the store holds for the session after a transition. */
  function Stored(m: Move): State
  {
    if m.restart then DefaultState else m.next
  }
}
