/**
 * The in-memory session store and the chat endpoint's request handling,
 * imperatively: each session is a mutable record, the store is a map from
 * session id to record, and one request mutates the record in place
 * branch by branch. Each method is proved to perform the transition that
 * module Dialogue defines.
 */
module Sessions {
  import opened Wrappers
  import opened Classify
  import opened Dates
  import opened Workflows
  import opened Dialogue
  import DialogueLaws

  /** A session record, updated in place by the handler. */
  class Session {
    var phase: Phase
    var flow: Option<Flow>
    var source: Option<Source>
    var flightType: Option<FlightType>
    var departureDate: Option<string>
    var returnDate: Option<string>
    var step: nat
    var history: seq<Entry>

    /** The record's current contents. */
    function Value(): State
      reads this
    {
      State(phase, flow, source, flightType, departureDate, returnDate, step, history)
    }

    /** The record `getSession` creates for a new id. */
    constructor ()
      ensures Value() == DefaultState
    {
      phase := Greeting;
      flow := None;
      source := None;
      flightType := None;
      departureDate := None;
      returnDate := None;
      step := 0;
      history := [];
    }

    /** `conversationHistory.push(entry)`. */
    method Record(entry: Entry)
      modifies this
      ensures Value() == old(Value()).(history := old(history) + [entry])
    {
      history := history + [entry];
    }

    method HandleBookingIntent(message: string, msg: string, llm: Llm) returns (reply: Reply)
      requires phase == AwaitingBookingIntent
      modifies this
      ensures Move(Value(), reply, false) == OnBookingIntent(old(Value()), message, msg, llm)
    {
      var detected := DetectBookingType(msg);
      if WantsToBook(msg) || detected.Some? {
        if detected.Some? {
          flow := detected;
          phase := AwaitingSource;
          reply := AskSource(detected.value);
        } else {
          phase := AwaitingBookingType;
          reply := AskBookingType;
        }
      } else if Declines(msg) {
        reply := FreeChat(FreeChatText(llm, message, history));
      } else {
        reply := FreeChat(FreeChatText(llm, message, history));
      }
    }

    method HandleBookingType(msg: string) returns (reply: Reply)
      requires phase == AwaitingBookingType
      modifies this
      ensures Move(Value(), reply, false) == OnBookingType(old(Value()), msg)
    {
      var bookingType := DetectBookingType(msg);
      if bookingType.Some? {
        flow := bookingType;
        phase := AwaitingSource;
        reply := AskSource(bookingType.value);
      } else {
        reply := RepromptBookingType;
      }
    }

    method HandleSource(msg: string) returns (reply: Reply)
      requires phase == AwaitingSource && flow.Some?
      modifies this
      ensures Move(Value(), reply, false) == OnSource(old(Value()), msg)
    {
      var detected := DetectSource(msg);
      if detected.Some? {
        source := detected;
        if flow == Some(Flight) {
          phase := AwaitingFlightType;
          reply := AskFlightType;
        } else {
          phase := GuidedFlow;
          step := 0;
          var steps := FixedSteps(flow.value, source.value);
          reply := GuidedStart(flow.value, source.value, steps[0]);
        }
      } else {
        reply := RepromptSource;
      }
    }

    method HandleFlightType(msg: string) returns (reply: Reply)
      requires phase == AwaitingFlightType
      modifies this
      ensures Move(Value(), reply, false) == OnFlightType(old(Value()), msg)
    {
      var detected := DetectFlightType(msg);
      if detected.Some? {
        flightType := detected;
        phase := AwaitingDepartureDate;
        reply := AskDepartureDate(detected == Some(RoundTrip));
      } else {
        reply := RepromptFlightType;
      }
    }

    method HandleDepartureDate(message: string, currentYear: nat) returns (reply: Reply)
      requires phase == AwaitingDepartureDate && source.Some?
      modifies this
      ensures Move(Value(), reply, false) == OnDepartureDate(old(Value()), message, currentYear)
    {
      var date := ParseDate(message, currentYear);
      if date.None? {
        reply := DateFormatError(Departure);
      } else if ConvertToDate(date.value).Err? {
        reply := DateCalendarError(Departure);
      } else {
        departureDate := date;
        if flightType == Some(RoundTrip) {
          phase := AwaitingReturnDate;
          reply := AskReturnDate;
        } else {
          phase := GuidedFlow;
          step := 0;
          var steps := FlightSteps(source.value, departureDate.value);
          reply := OneWayStart(source.value, departureDate.value, steps[0]);
        }
      }
    }

    method HandleReturnDate(message: string, currentYear: nat) returns (reply: Reply)
      requires phase == AwaitingReturnDate && source.Some?
      modifies this
      ensures Move(Value(), reply, false) == OnReturnDate(old(Value()), message, currentYear)
    {
      var date := ParseDate(message, currentYear);
      if date.None? {
        reply := DateFormatError(Return);
      } else if ConvertToDate(date.value).Err? {
        reply := DateCalendarError(Return);
      } else if !IsReturnDateValid(departureDate, date) {
        reply := DateOrderError(Show(departureDate));
      } else {
        returnDate := date;
        phase := GuidedFlow;
        step := 0;
        var range := DateRange(Show(departureDate), returnDate.value);
        var steps := FlightSteps(source.value, range);
        reply := RoundTripStart(source.value, range, steps[0]);
      }
    }

    /** The end of a guided booking: back to asking for an intent, with
        every choice of the finished booking cleared. */
    method ForgetBooking()
      modifies this
      ensures Value() == old(Value()).(phase := AwaitingBookingIntent, flow := None, source := None,
                                       flightType := None, departureDate := None, returnDate := None, step := 0)
    {
      phase := AwaitingBookingIntent;
      flow := None;
      source := None;
      flightType := None;
      departureDate := None;
      returnDate := None;
      step := 0;
    }

    method HandleGuided(msg: string) returns (reply: Reply, restart: bool)
      requires phase == GuidedFlow && flow.Some? && source.Some? && step < |ActiveSteps(Value())|
      modifies this
      ensures Move(Value(), reply, restart) == OnGuided(old(Value()), msg)
    {
      var steps := ActiveSteps(Value());
      restart := false;
      if SaysDone(msg) {
        step := step + 1;
        if step < |steps| {
          reply := NextStep(steps[step]);
        } else {
          reply := Completed(flow.value);
          ForgetBooking();
        }
      } else if SaysBack(msg) {
        if step > 0 {
          step := step - 1;
          reply := WentBack(steps[step]);
        } else {
          reply := AtFirstStep(steps[step]);
        }
      } else if SaysRestart(msg) {
        reply := Restarted;
        restart := true;
      } else {
        reply := CurrentStep(steps[step]);
      }
    }

    /** The phase branches of the handler, on this record. */
    method Handle(message: string, currentYear: nat, llm: Llm) returns (reply: Reply, restart: bool)
      requires Inv(Value())
      modifies this
      ensures Move(Value(), reply, restart) == Dispatch(old(Value()), message, currentYear, llm)
    {
      var msg := NormalizeInput(message);
      restart := false;
      if phase == Greeting {
        reply := Welcome;
        phase := AwaitingBookingIntent;
      } else if phase == AwaitingBookingIntent {
        reply := HandleBookingIntent(message, msg, llm);
      } else if phase == AwaitingBookingType {
        reply := HandleBookingType(msg);
      } else if phase == AwaitingSource {
        reply := HandleSource(msg);
      } else if phase == AwaitingFlightType {
        reply := HandleFlightType(msg);
      } else if phase == AwaitingDepartureDate {
        reply := HandleDepartureDate(message, currentYear);
      } else if phase == AwaitingReturnDate {
        reply := HandleReturnDate(message, currentYear);
      } else {
        reply, restart := HandleGuided(msg);
      }
    }

    /** The handler's work on the record: record the message, run the
        phase branch, record the reply. */
    method Turn(message: string, currentYear: nat, llm: Llm) returns (reply: Reply, restart: bool)
      requires Inv(Value())
      modifies this
      ensures Inv(Value())
      ensures Move(Value(), reply, restart) == Transition(old(Value()), message, currentYear, llm)
    {
      ghost var before := Value();
      Record(UserEntry(message));
      DialogueLaws.InvIgnoresHistory(before, history);
      ghost var withUser := Value();
      reply, restart := Handle(message, currentYear, llm);
      Record(AssistantEntry(reply));
      DialogueLaws.TransitionKeepsInv(before, message, currentYear, llm);
    }
  }

  /** What the endpoint answers: the reply with the record's snapshot, or
      the rejection of a request without a message. */
  datatype Response = Replied(reply: Reply, state: Snapshot) | MessageRequired

  /** The session id of a request; a request without one uses "default". */
  function SessionKey(sessionId: Option<string>): string
  {
    match sessionId
    case Some(id) => id
    case None => "default"
  }

  /** The store behind `getSession` and `resetSession`. */
  class SessionStore {
    var sessions: map<string, Session>

    /** Every stored record keeps the dialogue invariant, and no record is
        stored under two ids. */
    ghost predicate Valid()
      reads this, sessions.Values
    {
      && (forall id {:trigger Current(id)} :: id in sessions ==> Inv(Current(id)))
      && (forall a, b :: a in sessions && b in sessions && a != b ==> sessions[a] != sessions[b])
    }

    /** The record of a session as the next request will see it. */
    function Current(id: string): State
      reads this, sessions.Values
    {
      if id in sessions then sessions[id].Value() else DefaultState
    }

    constructor ()
      ensures Valid() && sessions == map[]
    {
      sessions := map[];
    }

    /** `getSession(id)`: the stored record, created in its default state
        when the id is new. */
    method GetSession(id: string) returns (s: Session)
      requires Valid()
      modifies this
      ensures Valid()
      ensures id in sessions && s == sessions[id]
      ensures id in old(sessions) ==> sessions == old(sessions)
      ensures id !in old(sessions) ==> fresh(s) && s.Value() == DefaultState && sessions == old(sessions)[id := s]
      ensures s.Value() == old(Current(id))
    {
      if id !in sessions {
        s := new Session();
        sessions := sessions[id := s];
        forall k | k in sessions
          ensures Inv(Current(k))
        {
          if k != id {
            assert Current(k) == old(Current(k));
          }
        }
      } else {
        s := sessions[id];
      }
    }

    /** `resetSession(id)`: forget the record and store a new default one. */
    method ResetSession(id: string) returns (s: Session)
      requires Valid()
      modifies this
      ensures Valid()
      ensures fresh(s) && s.Value() == DefaultState && sessions == old(sessions)[id := s]
    {
      sessions := map k | k in sessions && k != id :: sessions[k];
      forall k | k in sessions
        ensures Inv(Current(k))
      {
        assert Current(k) == old(Current(k));
      }
      s := GetSession(id);
    }

    /** The handler's work on a stored record: the record performs the
        transition, and no other record changes. */
    method Advance(id: string, state: Session, message: string, currentYear: nat, llm: Llm)
      returns (reply: Reply, restart: bool)
      requires Valid() && id in sessions && sessions[id] == state && Inv(state.Value())
      modifies state
      ensures Valid()
      ensures Move(state.Value(), reply, restart) == Transition(old(state.Value()), message, currentYear, llm)
      ensures forall k :: k in sessions && k != id ==> sessions[k].Value() == old(sessions[k].Value())
    {
      assert forall k :: k in sessions && k != id ==> sessions[k] != state;
      reply, restart := state.Turn(message, currentYear, llm);
      forall k | k in sessions
        ensures Inv(Current(k))
      {
        if k != id {
          assert Current(k) == old(Current(k));
        }
      }
    }

    /** After a restart command the store drops the session's record for a
        new default one. The handler records the reply after this reset, on
        the dropped record; the order does not matter, because the reset
        never reads that record. */
    method Settle(id: string, restart: bool)
      requires Valid()
      modifies this
      ensures Valid()
      ensures !restart ==> sessions == old(sessions)
      ensures restart ==>
        id in sessions && fresh(sessions[id]) && sessions[id].Value() == DefaultState
        && sessions == old(sessions)[id := sessions[id]]
    {
      if restart {
        var replacement := ResetSession(id);
      }
    }

    /** One request on the session `id`: the reply and the snapshot are
        the transition's, the store holds its result under the id (a new
        default record after a restart), and every other session is left as
        it was. */
    method Serve(id: string, message: string, currentYear: nat, llm: Llm)
      returns (reply: Reply, view: Snapshot)
      requires Valid()
      modifies this, sessions.Values
      ensures Valid()
      ensures var t := Transition(old(Current(id)), message, currentYear, llm);
        && reply == t.reply && view == SnapshotOf(t.next)
        && sessions.Keys == old(sessions).Keys + {id}
        && Current(id) == Stored(t)
        && (id !in old(sessions) || t.restart ==> fresh(sessions[id]))
        && (id in old(sessions) && !t.restart ==> sessions[id] == old(sessions[id]))
      ensures forall k :: k in old(sessions) && k != id ==>
        k in sessions && sessions[k] == old(sessions[k]) && sessions[k].Value() == old(sessions[k].Value())
    {
      var state := GetSession(id);
      assert Current(id) == state.Value();
      var restart;
      reply, restart := Advance(id, state, message, currentYear, llm);
      ghost var t := Transition(old(Current(id)), message, currentYear, llm);
      assert reply == t.reply && restart == t.restart && state.Value() == t.next;
      ghost var live := sessions;
      assert forall k :: k in old(sessions) && k != id ==> live[k] == old(sessions[k]);
      Settle(id, restart);
      assert sessions.Keys == live.Keys;
      if restart {
        assert Current(id) == DefaultState;
      } else {
        assert sessions == live;
        assert Current(id) == state.Value();
      }
      view := SnapshotOf(state.Value());
    }

    /** One POST to the chat endpoint. A request without a message, or with
        an empty one, is rejected before any session is touched; otherwise
        the request is served on its session, "default" when it names none. */
    method Chat(sessionId: Option<string>, message: Option<string>, currentYear: nat, llm: Llm)
      returns (r: Response)
      requires Valid()
      modifies this, sessions.Values
      ensures Valid()
      ensures message.None? || message == Some("") ==>
        && r == MessageRequired && sessions == old(sessions)
        && forall k :: k in sessions ==> sessions[k].Value() == old(sessions[k].Value())
      ensures message.Some? && message != Some("") ==>
        var t := Transition(old(Current(SessionKey(sessionId))), message.value, currentYear, llm);
        && r == Replied(t.reply, SnapshotOf(t.next))
        && Current(SessionKey(sessionId)) == Stored(t)
        && sessions.Keys == old(sessions).Keys + {SessionKey(sessionId)}
        && forall k :: k in old(sessions) && k != SessionKey(sessionId) ==>
             k in sessions && sessions[k] == old(sessions[k]) && sessions[k].Value() == old(sessions[k].Value())
    {
      if message.None? || message.value == "" {
        return MessageRequired;
      }
      var reply, view := Serve(SessionKey(sessionId), message.value, currentYear, llm);
      r := Replied(reply, view);
    }
  }
}
