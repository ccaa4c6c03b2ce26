/**
 * What the chat endpoint's state machine guarantees, proved about the
 * transition function of module Dialogue.
 */
module DialogueLaws {
  import opened Wrappers
  import opened Text
  import opened Classify
  import opened Dates
  import opened Workflows
  import opened Dialogue

  // ---------------------------------------------------------------------
  // The record invariant is kept
  // ---------------------------------------------------------------------

  /** The invariant does not look at the history. */
  lemma InvIgnoresHistory(s: State, h: seq<Entry>)
    ensures Inv(s) <==> Inv(s.(history := h))
  {
    assert Descriptor(s) == Descriptor(s.(history := h));
  }

  lemma IntentKeepsInv(s: State, message: string, msg: string, llm: Llm)
    requires Inv(s) && s.phase == AwaitingBookingIntent
    ensures Inv(OnBookingIntent(s, message, msg, llm).next)
    ensures OnBookingIntent(s, message, msg, llm).next.history == s.history
  {
  }

  lemma BookingTypeKeepsInv(s: State, msg: string)
    requires Inv(s) && s.phase == AwaitingBookingType
    ensures Inv(OnBookingType(s, msg).next) && OnBookingType(s, msg).next.history == s.history
  {
  }

  lemma SourceKeepsInv(s: State, msg: string)
    requires Inv(s) && s.phase == AwaitingSource
    ensures Inv(OnSource(s, msg).next) && OnSource(s, msg).next.history == s.history
  {
  }

  lemma FlightTypeKeepsInv(s: State, msg: string)
    requires Inv(s) && s.phase == AwaitingFlightType
    ensures Inv(OnFlightType(s, msg).next) && OnFlightType(s, msg).next.history == s.history
  {
  }

  lemma DepartureKeepsInv(s: State, message: string, currentYear: nat)
    requires Inv(s) && s.phase == AwaitingDepartureDate
    ensures Inv(OnDepartureDate(s, message, currentYear).next)
    ensures OnDepartureDate(s, message, currentYear).next.history == s.history
  {
  }

  lemma ReturnKeepsInv(s: State, message: string, currentYear: nat)
    requires Inv(s) && s.phase == AwaitingReturnDate
    ensures Inv(OnReturnDate(s, message, currentYear).next)
    ensures OnReturnDate(s, message, currentYear).next.history == s.history
  {
  }

  lemma GuidedKeepsInv(s: State, msg: string)
    requires Inv(s) && s.phase == GuidedFlow
    ensures Inv(OnGuided(s, msg).next) && OnGuided(s, msg).next.history == s.history
  {
    GuidedBranch(s, msg);
  }

  lemma DispatchKeepsInv(s: State, message: string, currentYear: nat, llm: Llm)
    requires Inv(s)
    ensures Inv(Dispatch(s, message, currentYear, llm).next)
    ensures Dispatch(s, message, currentYear, llm).next.history == s.history
  {
    var msg := NormalizeInput(message);
    var d := Dispatch(s, message, currentYear, llm);
    match s.phase
    case Greeting =>
    case AwaitingBookingIntent =>
      assert d == OnBookingIntent(s, message, msg, llm);
      IntentKeepsInv(s, message, msg, llm);
    case AwaitingBookingType =>
      assert d == OnBookingType(s, msg);
      BookingTypeKeepsInv(s, msg);
    case AwaitingSource =>
      assert d == OnSource(s, msg);
      SourceKeepsInv(s, msg);
    case AwaitingFlightType =>
      assert d == OnFlightType(s, msg);
      FlightTypeKeepsInv(s, msg);
    case AwaitingDepartureDate =>
      assert d == OnDepartureDate(s, message, currentYear);
      DepartureKeepsInv(s, message, currentYear);
    case AwaitingReturnDate =>
      assert d == OnReturnDate(s, message, currentYear);
      ReturnKeepsInv(s, message, currentYear);
    case GuidedFlow =>
      assert d == OnGuided(s, msg);
      GuidedKeepsInv(s, msg);
  }

  /** Every request leaves a record that satisfies the invariant, appends
      exactly the message and the reply to the history, and changes the
      history in no other way. */
  lemma TransitionKeepsInv(s: State, message: string, currentYear: nat, llm: Llm)
    requires Inv(s)
    ensures var m := Transition(s, message, currentYear, llm);
      Inv(m.next) && Inv(Stored(m))
      && m.next.history == s.history + [UserEntry(message), AssistantEntry(m.reply)]
  {
    var withUser := s.(history := s.history + [UserEntry(message)]);
    InvIgnoresHistory(s, withUser.history);
    var d := Dispatch(withUser, message, currentYear, llm);
    DispatchKeepsInv(withUser, message, currentYear, llm);
    InvIgnoresHistory(d.next, d.next.history + [AssistantEntry(d.reply)]);
  }

  /** A new session satisfies the invariant. */
  lemma DefaultStateValid()
    ensures Inv(DefaultState) && Unconfigured(DefaultState) && DefaultState.history == []
  {
  }

  // ---------------------------------------------------------------------
  // Reading a transition through its phase branch
  // ---------------------------------------------------------------------

  /** The record the phase branch sees: the history already holds the message. */
  function WithUser(s: State, message: string): State
  {
    s.(history := s.history + [UserEntry(message)])
  }

  /** A transition's reply, reset flag and snapshot are those of the phase
      branch run on the record with the message appended. */
  lemma TransitionThroughBranch(s: State, message: string, currentYear: nat, llm: Llm)
    requires Inv(s)
    ensures Inv(WithUser(s, message))
    ensures var m := Transition(s, message, currentYear, llm);
      var d := Dispatch(WithUser(s, message), message, currentYear, llm);
      m.reply == d.reply && m.restart == d.restart && SnapshotOf(m.next) == SnapshotOf(d.next)
  {
    InvIgnoresHistory(s, WithUser(s, message).history);
  }

  /** The snapshot the branch sees is the record's own. */
  lemma WithUserSnapshot(s: State, message: string)
    ensures SnapshotOf(WithUser(s, message)) == SnapshotOf(s)
    ensures Descriptor(WithUser(s, message)) == Descriptor(s)
  {
  }

  // ---------------------------------------------------------------------
  // The guided flow
  // ---------------------------------------------------------------------

  /** In the guided flow a transition is the guided branch run on the
      record with the message appended, which has the same snapshot and the
      same workflow. */
  lemma ThroughGuided(s: State, message: string, currentYear: nat, llm: Llm)
    requires Inv(s) && s.phase == GuidedFlow
    ensures Inv(WithUser(s, message)) && SnapshotOf(WithUser(s, message)) == SnapshotOf(s)
    ensures ActiveSteps(WithUser(s, message)) == ActiveSteps(s)
    ensures var m := Transition(s, message, currentYear, llm);
      var d := OnGuided(WithUser(s, message), NormalizeInput(message));
      m.reply == d.reply && m.restart == d.restart && SnapshotOf(m.next) == SnapshotOf(d.next)
  {
    var w := WithUser(s, message);
    TransitionThroughBranch(s, message, currentYear, llm);
    WithUserSnapshot(s, message);
    assert Dispatch(w, message, currentYear, llm) == OnGuided(w, NormalizeInput(message));
  }

  /** Case lemmas of `GuidedBranch`: the six outcomes of the guided branch,
      one command at a time. */
  lemma GuidedAdvances(s: State, msg: string)
    requires Inv(s) && s.phase == GuidedFlow && SaysDone(msg) && s.step + 1 < |ActiveSteps(s)|
    ensures var d := OnGuided(s, msg);
      && d == Move(s.(step := s.step + 1), NextStep(ActiveSteps(s)[s.step + 1]), false)
      && Inv(d.next) && ActiveSteps(d.next) == ActiveSteps(s)
  {
    assert Descriptor(s.(step := s.step + 1)) == Descriptor(s);
  }

  lemma GuidedCompletes(s: State, msg: string)
    requires Inv(s) && s.phase == GuidedFlow && SaysDone(msg) && s.step + 1 == |ActiveSteps(s)|
    ensures var d := OnGuided(s, msg);
      && d == Move(s.(phase := AwaitingBookingIntent, flow := None, source := None, flightType := None,
                      departureDate := None, returnDate := None, step := 0),
                   Completed(s.flow.value), false)
      && Inv(d.next)
  {
  }

  lemma GuidedStepsBack(s: State, msg: string)
    requires Inv(s) && s.phase == GuidedFlow && !SaysDone(msg) && SaysBack(msg) && s.step > 0
    ensures var d := OnGuided(s, msg);
      && d == Move(s.(step := s.step - 1), WentBack(ActiveSteps(s)[s.step - 1]), false)
      && Inv(d.next) && ActiveSteps(d.next) == ActiveSteps(s)
  {
    assert Descriptor(s.(step := s.step - 1)) == Descriptor(s);
  }

  lemma GuidedStaysAtFirst(s: State, msg: string)
    requires Inv(s) && s.phase == GuidedFlow && !SaysDone(msg) && SaysBack(msg) && s.step == 0
    ensures OnGuided(s, msg) == Move(s, AtFirstStep(ActiveSteps(s)[0]), false)
  {
  }

  lemma GuidedRestarts(s: State, msg: string)
    requires Inv(s) && s.phase == GuidedFlow && !SaysDone(msg) && !SaysBack(msg) && SaysRestart(msg)
    ensures OnGuided(s, msg) == Move(s, Restarted, true)
  {
  }

  lemma GuidedRepeats(s: State, msg: string)
    requires Inv(s) && s.phase == GuidedFlow && !SaysDone(msg) && !SaysBack(msg) && !SaysRestart(msg)
    ensures OnGuided(s, msg) == Move(s, CurrentStep(ActiveSteps(s)[s.step]), false)
  {
  }

  /** The guided branch: "done" moves one step forward and, past the last
      step, completes the booking and forgets all its choices; "back" moves
      one step back, or stays at the first step; "restart" asks for a reset
      and changes nothing else; anything else repeats the current step. The
      invariant and the history are kept, and wherever the record stays in
      the guided flow it follows the same workflow. */
  lemma GuidedBranch(s: State, msg: string)
    requires Inv(s) && s.phase == GuidedFlow
    ensures var d := OnGuided(s, msg);
      var steps := ActiveSteps(s);
      && Inv(d.next) && d.next.history == s.history
      && (d.next.phase == GuidedFlow ==> ActiveSteps(d.next) == steps)
      && (SaysDone(msg) && s.step + 1 < |steps| ==>
            d.next == s.(step := s.step + 1) && d.reply == NextStep(steps[s.step + 1]))
      && (SaysDone(msg) && s.step + 1 == |steps| ==>
            d.next.phase == AwaitingBookingIntent && Unconfigured(d.next) && d.next.step == 0
            && d.reply == Completed(s.flow.value))
      && (!SaysDone(msg) && SaysBack(msg) && s.step > 0 ==>
            d.next == s.(step := s.step - 1) && d.reply == WentBack(steps[s.step - 1]))
      && (!SaysDone(msg) && SaysBack(msg) && s.step == 0 ==>
            d.next == s && d.reply == AtFirstStep(steps[0]))
      && (!SaysDone(msg) && !SaysBack(msg) && SaysRestart(msg) ==>
            d.next == s && d.reply == Restarted)
      && (!SaysDone(msg) && !SaysBack(msg) && !SaysRestart(msg) ==>
            d.next == s && d.reply == CurrentStep(steps[s.step]))
      && (d.restart <==> !SaysDone(msg) && !SaysBack(msg) && SaysRestart(msg))
  {
    if SaysDone(msg) {
      if s.step + 1 < |ActiveSteps(s)| {
        GuidedAdvances(s, msg);
      } else {
        GuidedCompletes(s, msg);
      }
    } else if SaysBack(msg) {
      if s.step > 0 {
        GuidedStepsBack(s, msg);
      } else {
        GuidedStaysAtFirst(s, msg);
      }
    } else if SaysRestart(msg) {
      GuidedRestarts(s, msg);
    } else {
      GuidedRepeats(s, msg);
    }
  }

  /** The guided branch, seen through a whole request. The reset flag is
      raised in exactly the restart case. */
  lemma GuidedOutcome(s: State, message: string, currentYear: nat, llm: Llm)
    requires Inv(s) && s.phase == GuidedFlow
    ensures var m := Transition(s, message, currentYear, llm);
      var msg := NormalizeInput(message);
      var steps := ActiveSteps(s);
      && (SaysDone(msg) && s.step + 1 < |steps| ==>
            SnapshotOf(m.next) == SnapshotOf(s).(step := s.step + 1) && m.reply == NextStep(steps[s.step + 1]))
      && (SaysDone(msg) && s.step + 1 == |steps| ==>
            m.next.phase == AwaitingBookingIntent && Unconfigured(m.next) && m.next.step == 0
            && m.reply == Completed(s.flow.value))
      && (!SaysDone(msg) && SaysBack(msg) && s.step > 0 ==>
            SnapshotOf(m.next) == SnapshotOf(s).(step := s.step - 1) && m.reply == WentBack(steps[s.step - 1]))
      && (!SaysDone(msg) && SaysBack(msg) && s.step == 0 ==>
            SnapshotOf(m.next) == SnapshotOf(s) && m.reply == AtFirstStep(steps[0]))
      && (!SaysDone(msg) && !SaysBack(msg) && SaysRestart(msg) ==>
            SnapshotOf(m.next) == SnapshotOf(s) && m.reply == Restarted)
      && (!SaysDone(msg) && !SaysBack(msg) && !SaysRestart(msg) ==>
            SnapshotOf(m.next) == SnapshotOf(s) && m.reply == CurrentStep(steps[s.step]))
      && (m.restart <==> !SaysDone(msg) && !SaysBack(msg) && SaysRestart(msg))
  {
    ThroughGuided(s, message, currentYear, llm);
    GuidedBranch(WithUser(s, message), NormalizeInput(message));
  }

  /** Records that agree on everything but the step and the history follow
      the same workflow. */
  lemma SameWorkflow(s: State, t: State)
    requires s.flow.Some? && s.source.Some?
    requires SnapshotOf(t) == SnapshotOf(s).(step := t.step)
    ensures t.flow.Some? && t.source.Some? && ActiveSteps(t) == ActiveSteps(s)
  {
    assert Descriptor(t) == Descriptor(s);
  }

  lemma GuidedBranchShowsStep(s: State, msg: string)
    requires Inv(s) && s.phase == GuidedFlow
    ensures var d := OnGuided(s, msg);
      (d.reply.NextStep? || d.reply.WentBack? || d.reply.AtFirstStep? || d.reply.CurrentStep?) ==>
        && d.next.phase == GuidedFlow && d.next.flow.Some? && d.next.source.Some?
        && d.next.step < |ActiveSteps(d.next)|
        && d.reply.text == ActiveSteps(d.next)[d.next.step]
  {
    GuidedBranch(s, msg);
  }

  /** Whatever the guided flow shows of the workflow is the step the
      session is now at. */
  lemma GuidedShowsCurrentStep(s: State, message: string, currentYear: nat, llm: Llm)
    requires Inv(s) && s.phase == GuidedFlow
    ensures var m := Transition(s, message, currentYear, llm);
      (m.reply.NextStep? || m.reply.WentBack? || m.reply.AtFirstStep? || m.reply.CurrentStep?) ==>
        && m.next.phase == GuidedFlow && m.next.flow.Some? && m.next.source.Some?
        && m.next.step < |ActiveSteps(m.next)|
        && m.reply.text == ActiveSteps(m.next)[m.next.step]
  {
    var w := WithUser(s, message);
    var d := OnGuided(w, NormalizeInput(message));
    var m := Transition(s, message, currentYear, llm);
    ThroughGuided(s, message, currentYear, llm);
    GuidedBranchShowsStep(w, NormalizeInput(message));
    if m.reply.NextStep? || m.reply.WentBack? || m.reply.AtFirstStep? || m.reply.CurrentStep? {
      SameWorkflow(d.next, m.next);
    }
  }

  /** "done" followed by "back" returns to the same step, when "done" did
      not finish the workflow. */
  lemma DoneThenBack(s: State, m1: string, m2: string, currentYear: nat, llm: Llm)
    requires Inv(s) && s.phase == GuidedFlow && s.step + 1 < |ActiveSteps(s)|
    requires SaysDone(NormalizeInput(m1))
    requires !SaysDone(NormalizeInput(m2)) && SaysBack(NormalizeInput(m2))
    ensures var a := Transition(s, m1, currentYear, llm).next;
      Inv(a) && SnapshotOf(Transition(a, m2, currentYear, llm).next) == SnapshotOf(s)
  {
    var a := Transition(s, m1, currentYear, llm).next;
    GuidedOutcome(s, m1, currentYear, llm);
    TransitionKeepsInv(s, m1, currentYear, llm);
    SameWorkflow(s, a);
    GuidedOutcome(a, m2, currentYear, llm);
  }

  /** "back" followed by "done" returns to the same step, away from the
      first step. */
  lemma BackThenDone(s: State, m1: string, m2: string, currentYear: nat, llm: Llm)
    requires Inv(s) && s.phase == GuidedFlow && s.step > 0
    requires !SaysDone(NormalizeInput(m1)) && SaysBack(NormalizeInput(m1))
    requires SaysDone(NormalizeInput(m2))
    ensures var a := Transition(s, m1, currentYear, llm).next;
      Inv(a) && SnapshotOf(Transition(a, m2, currentYear, llm).next) == SnapshotOf(s)
  {
    var a := Transition(s, m1, currentYear, llm).next;
    GuidedOutcome(s, m1, currentYear, llm);
    TransitionKeepsInv(s, m1, currentYear, llm);
    SameWorkflow(s, a);
    GuidedOutcome(a, m2, currentYear, llm);
  }

  /** At the first step, "back" changes nothing, however often it is said. */
  lemma BackAtFirstStepIsIdempotent(s: State, message: string, currentYear: nat, llm: Llm)
    requires Inv(s) && s.phase == GuidedFlow && s.step == 0
    requires !SaysDone(NormalizeInput(message)) && SaysBack(NormalizeInput(message))
    ensures var a := Transition(s, message, currentYear, llm).next;
      Inv(a) && SnapshotOf(a) == SnapshotOf(s)
      && SnapshotOf(Transition(a, message, currentYear, llm).next) == SnapshotOf(s)
  {
    var a := Transition(s, message, currentYear, llm).next;
    GuidedOutcome(s, message, currentYear, llm);
    TransitionKeepsInv(s, message, currentYear, llm);
    SameWorkflow(s, a);
    GuidedOutcome(a, message, currentYear, llm);
  }

  // ---------------------------------------------------------------------
  // Greeting, intent and the three choices
  // ---------------------------------------------------------------------

  /** The first message of a session, whatever it says, is answered with
      the welcome and moves on to asking for a booking intent. */
  lemma GreetingOutcome(s: State, message: string, currentYear: nat, llm: Llm)
    requires Inv(s) && s.phase == Greeting
    ensures var m := Transition(s, message, currentYear, llm);
      m.reply == Welcome && !m.restart && SnapshotOf(m.next) == SnapshotOf(s).(phase := AwaitingBookingIntent)
  {
    TransitionThroughBranch(s, message, currentYear, llm);
    WithUserSnapshot(s, message);
  }

  /** A detected booking type goes straight to the source question; a
      booking word without a type asks for the type; anything else is
      answered by free chat, from the language model or the fallback, over
      the last six history entries ending with this message, and changes
      nothing. */
  lemma IntentOutcome(s: State, message: string, currentYear: nat, llm: Llm)
    requires Inv(s) && s.phase == AwaitingBookingIntent
    ensures var m := Transition(s, message, currentYear, llm);
      var msg := NormalizeInput(message);
      var detected := DetectBookingType(msg);
      && !m.restart
      && (detected.Some? ==>
            SnapshotOf(m.next) == SnapshotOf(s).(flow := detected, phase := AwaitingSource)
            && m.reply == AskSource(detected.value))
      && (detected.None? && WantsToBook(msg) ==>
            SnapshotOf(m.next) == SnapshotOf(s).(phase := AwaitingBookingType) && m.reply == AskBookingType)
      && (detected.None? && !WantsToBook(msg) ==>
            SnapshotOf(m.next) == SnapshotOf(s)
            && m.reply == FreeChat(FreeChatText(llm, message, s.history + [UserEntry(message)])))
  {
    var w := WithUser(s, message);
    TransitionThroughBranch(s, message, currentYear, llm);
    WithUserSnapshot(s, message);
    assert Dispatch(w, message, currentYear, llm) == OnBookingIntent(w, message, NormalizeInput(message), llm);
  }

  /** The language model sees at most six entries, the last of them the
      message being answered. */
  lemma FreeChatSeesMessage(h: seq<Entry>, message: string)
    ensures var r := LastSix(h + [UserEntry(message)]);
      1 <= |r| <= 6 && r[|r| - 1] == UserEntry(message)
  {
  }

  /** The booking type is taken when one is detected, and asked again
      otherwise, with nothing changed. */
  lemma BookingTypeOutcome(s: State, message: string, currentYear: nat, llm: Llm)
    requires Inv(s) && s.phase == AwaitingBookingType
    ensures var m := Transition(s, message, currentYear, llm);
      var t := DetectBookingType(NormalizeInput(message));
      && !m.restart
      && (t.Some? ==> SnapshotOf(m.next) == SnapshotOf(s).(flow := t, phase := AwaitingSource) && m.reply == AskSource(t.value))
      && (t.None? ==> SnapshotOf(m.next) == SnapshotOf(s) && m.reply == RepromptBookingType)
  {
    var w := WithUser(s, message);
    TransitionThroughBranch(s, message, currentYear, llm);
    WithUserSnapshot(s, message);
    assert Dispatch(w, message, currentYear, llm) == OnBookingType(w, NormalizeInput(message));
  }

  /** The source is taken when one is detected: a flight then asks for its
      type, a hotel or car starts its guided flow at step 0 and shows that
      step. Without a source nothing changes. */
  lemma SourceOutcome(s: State, message: string, currentYear: nat, llm: Llm)
    requires Inv(s) && s.phase == AwaitingSource
    ensures var m := Transition(s, message, currentYear, llm);
      var src := DetectSource(NormalizeInput(message));
      && !m.restart
      && (src.None? ==> SnapshotOf(m.next) == SnapshotOf(s) && m.reply == RepromptSource)
      && (src.Some? && s.flow == Some(Flight) ==>
            SnapshotOf(m.next) == SnapshotOf(s).(source := src, phase := AwaitingFlightType) && m.reply == AskFlightType)
      && (src.Some? && s.flow != Some(Flight) ==>
            && SnapshotOf(m.next) == SnapshotOf(s).(source := src, phase := GuidedFlow, step := 0)
            && m.reply == GuidedStart(s.flow.value, src.value, ActiveSteps(m.next)[0]))
  {
    var w := WithUser(s, message);
    TransitionThroughBranch(s, message, currentYear, llm);
    WithUserSnapshot(s, message);
    assert Dispatch(w, message, currentYear, llm) == OnSource(w, NormalizeInput(message));
    var m := Transition(s, message, currentYear, llm);
    if m.next.phase == GuidedFlow {
      assert Descriptor(m.next) == Descriptor(s);
    }
  }

  /** The flight type is taken when one is detected and the departure date
      is asked for, worded for a round trip or a one-way trip. */
  lemma FlightTypeOutcome(s: State, message: string, currentYear: nat, llm: Llm)
    requires Inv(s) && s.phase == AwaitingFlightType
    ensures var m := Transition(s, message, currentYear, llm);
      var t := DetectFlightType(NormalizeInput(message));
      && !m.restart
      && (t.Some? ==>
            SnapshotOf(m.next) == SnapshotOf(s).(flightType := t, phase := AwaitingDepartureDate)
            && m.reply == AskDepartureDate(t == Some(RoundTrip)))
      && (t.None? ==> SnapshotOf(m.next) == SnapshotOf(s) && m.reply == RepromptFlightType)
  {
    var w := WithUser(s, message);
    TransitionThroughBranch(s, message, currentYear, llm);
    WithUserSnapshot(s, message);
    assert Dispatch(w, message, currentYear, llm) == OnFlightType(w, NormalizeInput(message));
  }

  // ---------------------------------------------------------------------
  // The two dates
  // ---------------------------------------------------------------------

  /** The departure date: an unparsable message and a date that is not on
      the calendar are told apart and change nothing; a valid date is
      stored as parsed, and leads to the return date for a round trip or
      to step 0 of the guided flow, shown, for a one-way trip. */
  lemma DepartureOutcome(s: State, message: string, currentYear: nat, llm: Llm)
    requires Inv(s) && s.phase == AwaitingDepartureDate
    ensures var m := Transition(s, message, currentYear, llm);
      var p := ParseDate(message, currentYear);
      && !m.restart
      && (p.None? ==> SnapshotOf(m.next) == SnapshotOf(s) && m.reply == DateFormatError(Departure))
      && (p.Some? && !ValidDate(p.value) ==>
            SnapshotOf(m.next) == SnapshotOf(s) && m.reply == DateCalendarError(Departure))
      && (p.Some? && ValidDate(p.value) && s.flightType == Some(RoundTrip) ==>
            SnapshotOf(m.next) == SnapshotOf(s).(departureDate := p, phase := AwaitingReturnDate)
            && m.reply == AskReturnDate)
      && (p.Some? && ValidDate(p.value) && s.flightType != Some(RoundTrip) ==>
            && SnapshotOf(m.next) == SnapshotOf(s).(departureDate := p, phase := GuidedFlow, step := 0)
            && m.reply == OneWayStart(s.source.value, p.value, ActiveSteps(m.next)[0]))
  {
    var w := WithUser(s, message);
    TransitionThroughBranch(s, message, currentYear, llm);
    WithUserSnapshot(s, message);
    assert Dispatch(w, message, currentYear, llm) == OnDepartureDate(w, message, currentYear);
    var m := Transition(s, message, currentYear, llm);
    if m.next.phase == GuidedFlow {
      assert Descriptor(m.next) == m.next.departureDate.value;
    }
  }

  /** The return date: besides the two errors of the departure date, a
      valid date that is not later than the departure is refused with the
      departure date shown; an accepted one is stored and starts the guided
      flow over the date range, shown at step 0. */
  lemma ReturnOutcome(s: State, message: string, currentYear: nat, llm: Llm)
    requires Inv(s) && s.phase == AwaitingReturnDate
    ensures var m := Transition(s, message, currentYear, llm);
      var p := ParseDate(message, currentYear);
      && !m.restart
      && (p.None? ==> SnapshotOf(m.next) == SnapshotOf(s) && m.reply == DateFormatError(Return))
      && (p.Some? && !ValidDate(p.value) ==>
            SnapshotOf(m.next) == SnapshotOf(s) && m.reply == DateCalendarError(Return))
      && (p.Some? && ValidDate(p.value) && !IsReturnDateValid(s.departureDate, p) ==>
            SnapshotOf(m.next) == SnapshotOf(s) && m.reply == DateOrderError(s.departureDate.value))
      && (p.Some? && ValidDate(p.value) && IsReturnDateValid(s.departureDate, p) ==>
            && SnapshotOf(m.next) == SnapshotOf(s).(returnDate := p, phase := GuidedFlow, step := 0)
            && m.reply == RoundTripStart(s.source.value, DateRange(s.departureDate.value, p.value),
                                         ActiveSteps(m.next)[0]))
  {
    var w := WithUser(s, message);
    TransitionThroughBranch(s, message, currentYear, llm);
    WithUserSnapshot(s, message);
    assert Dispatch(w, message, currentYear, llm) == OnReturnDate(w, message, currentYear);
    var m := Transition(s, message, currentYear, llm);
    if m.next.phase == GuidedFlow {
      assert m.next.returnDate.value != "";
      assert Descriptor(m.next) == DateRange(s.departureDate.value, m.next.returnDate.value);
    }
  }

  // ---------------------------------------------------------------------
  // Across all phases
  // ---------------------------------------------------------------------

  /** Only a restart command in the guided flow resets the session; the
      reset answers with the restart notice and leaves the returned
      snapshot as it was. */
  lemma RestartExactly(s: State, message: string, currentYear: nat, llm: Llm)
    requires Inv(s)
    ensures var m := Transition(s, message, currentYear, llm);
      var msg := NormalizeInput(message);
      && (m.restart <==> s.phase == GuidedFlow && !SaysDone(msg) && !SaysBack(msg) && SaysRestart(msg))
      && (m.restart ==> m.reply == Restarted && SnapshotOf(m.next) == SnapshotOf(s) && Stored(m) == DefaultState)
      && (!m.restart ==> Stored(m) == m.next)
  {
    match s.phase
    case Greeting => GreetingOutcome(s, message, currentYear, llm);
    case AwaitingBookingIntent => IntentOutcome(s, message, currentYear, llm);
    case AwaitingBookingType => BookingTypeOutcome(s, message, currentYear, llm);
    case AwaitingSource => SourceOutcome(s, message, currentYear, llm);
    case AwaitingFlightType => FlightTypeOutcome(s, message, currentYear, llm);
    case AwaitingDepartureDate => DepartureOutcome(s, message, currentYear, llm);
    case AwaitingReturnDate => ReturnOutcome(s, message, currentYear, llm);
    case GuidedFlow => GuidedOutcome(s, message, currentYear, llm);
  }

  /** A departure date is only ever stored by the departure-date phase, as
      the parsed message, and only once the calendar check accepts it; a
      return date only by the return-date phase, and only once it is a
      valid date later than the departure. Otherwise a date is kept or,
      when a booking completes, cleared. */
  lemma DatesOnlyAfterValidation(s: State, message: string, currentYear: nat, llm: Llm)
    requires Inv(s)
    ensures var m := Transition(s, message, currentYear, llm);
      && (m.next.departureDate != s.departureDate && m.next.departureDate.Some? ==>
          && s.phase == AwaitingDepartureDate
          && m.next.departureDate == ParseDate(message, currentYear)
          && ValidDate(m.next.departureDate.value))
      && (m.next.returnDate != s.returnDate && m.next.returnDate.Some? ==>
          && s.phase == AwaitingReturnDate
          && m.next.returnDate == ParseDate(message, currentYear)
          && IsReturnDateValid(s.departureDate, m.next.returnDate))
  {
    match s.phase
    case Greeting => GreetingOutcome(s, message, currentYear, llm);
    case AwaitingBookingIntent => IntentOutcome(s, message, currentYear, llm);
    case AwaitingBookingType => BookingTypeOutcome(s, message, currentYear, llm);
    case AwaitingSource => SourceOutcome(s, message, currentYear, llm);
    case AwaitingFlightType => FlightTypeOutcome(s, message, currentYear, llm);
    case AwaitingDepartureDate => DepartureOutcome(s, message, currentYear, llm);
    case AwaitingReturnDate => ReturnOutcome(s, message, currentYear, llm);
    case GuidedFlow => GuidedOutcome(s, message, currentYear, llm);
  }

  /** The guided flow is only entered at step 0, with that step shown and
      the booking's choices in the reply. */
  lemma EnteringGuidedFlow(s: State, message: string, currentYear: nat, llm: Llm)
    requires Inv(s) && s.phase != GuidedFlow
    ensures var m := Transition(s, message, currentYear, llm);
      m.next.phase == GuidedFlow ==>
        && m.next.step == 0 && m.next.flow.Some? && m.next.source.Some?
        && match m.reply
          case GuidedStart(flow, source, first) =>
            m.next.flow == Some(flow) && flow != Flight && m.next.source == Some(source)
            && first == ActiveSteps(m.next)[0]
          case OneWayStart(source, date, first) =>
            m.next.flow == Some(Flight) && m.next.source == Some(source) && m.next.returnDate.None?
            && m.next.departureDate == Some(date) && first == ActiveSteps(m.next)[0]
          case RoundTripStart(source, range, first) =>
            && m.next.flow == Some(Flight) && m.next.source == Some(source)
            && m.next.departureDate.Some? && m.next.returnDate.Some?
            && range == DateRange(m.next.departureDate.value, m.next.returnDate.value)
            && first == ActiveSteps(m.next)[0]
          case _ => false
  {
    TransitionKeepsInv(s, message, currentYear, llm);
    match s.phase
    case Greeting => GreetingOutcome(s, message, currentYear, llm);
    case AwaitingBookingIntent => IntentOutcome(s, message, currentYear, llm);
    case AwaitingBookingType => BookingTypeOutcome(s, message, currentYear, llm);
    case AwaitingSource => SourceOutcome(s, message, currentYear, llm);
    case AwaitingFlightType => FlightTypeOutcome(s, message, currentYear, llm);
    case AwaitingDepartureDate => DepartureOutcome(s, message, currentYear, llm);
    case AwaitingReturnDate => ReturnOutcome(s, message, currentYear, llm);
    case GuidedFlow => GuidedOutcome(s, message, currentYear, llm);
  }

  /** The phases a request can lead to from each phase. */
  predicate CanFollow(p: Phase, q: Phase)
  {
    match p
    case Greeting => q == AwaitingBookingIntent
    case AwaitingBookingIntent => q in {AwaitingBookingIntent, AwaitingBookingType, AwaitingSource}
    case AwaitingBookingType => q in {AwaitingBookingType, AwaitingSource}
    case AwaitingSource => q in {AwaitingSource, AwaitingFlightType, GuidedFlow}
    case AwaitingFlightType => q in {AwaitingFlightType, AwaitingDepartureDate}
    case AwaitingDepartureDate => q in {AwaitingDepartureDate, AwaitingReturnDate, GuidedFlow}
    case AwaitingReturnDate => q in {AwaitingReturnDate, GuidedFlow}
    case GuidedFlow => q in {GuidedFlow, AwaitingBookingIntent}
  }

  /** Every request follows the phase graph; the greeting is never
      returned to except through a reset. */
  lemma TransitionFollowsGraph(s: State, message: string, currentYear: nat, llm: Llm)
    requires Inv(s)
    ensures var m := Transition(s, message, currentYear, llm);
      CanFollow(s.phase, m.next.phase) && (Stored(m).phase == Greeting ==> m.restart)
  {
    match s.phase
    case Greeting => GreetingOutcome(s, message, currentYear, llm);
    case AwaitingBookingIntent => IntentOutcome(s, message, currentYear, llm);
    case AwaitingBookingType => BookingTypeOutcome(s, message, currentYear, llm);
    case AwaitingSource => SourceOutcome(s, message, currentYear, llm);
    case AwaitingFlightType => FlightTypeOutcome(s, message, currentYear, llm);
    case AwaitingDepartureDate => DepartureOutcome(s, message, currentYear, llm);
    case AwaitingReturnDate => ReturnOutcome(s, message, currentYear, llm);
    case GuidedFlow => GuidedOutcome(s, message, currentYear, llm);
  }

  /** Free chat answers exactly the intent-phase messages that neither name
      a booking type nor ask to book. */
  lemma FreeChatExactly(s: State, message: string, currentYear: nat, llm: Llm)
    requires Inv(s)
    ensures var m := Transition(s, message, currentYear, llm);
      var msg := NormalizeInput(message);
      m.reply.FreeChat? <==>
        s.phase == AwaitingBookingIntent && DetectBookingType(msg).None? && !WantsToBook(msg)
  {
    match s.phase
    case Greeting => GreetingOutcome(s, message, currentYear, llm);
    case AwaitingBookingIntent => IntentOutcome(s, message, currentYear, llm);
    case AwaitingBookingType => BookingTypeOutcome(s, message, currentYear, llm);
    case AwaitingSource => SourceOutcome(s, message, currentYear, llm);
    case AwaitingFlightType => FlightTypeOutcome(s, message, currentYear, llm);
    case AwaitingDepartureDate => DepartureOutcome(s, message, currentYear, llm);
    case AwaitingReturnDate => ReturnOutcome(s, message, currentYear, llm);
    case GuidedFlow => GuidedOutcome(s, message, currentYear, llm);
  }

  // ---------------------------------------------------------------------
  // Conversations
  // ---------------------------------------------------------------------

  /** The record a session holds after a sequence of messages, resets included. */
  function Run(s: State, messages: seq<string>, currentYear: nat, llm: Llm): (r: State)
    requires Inv(s)
    ensures Inv(r)
    decreases |messages|
  {
    if messages == [] then s
    else
      TransitionKeepsInv(s, messages[0], currentYear, llm);
      Run(Stored(Transition(s, messages[0], currentYear, llm)), messages[1..], currentYear, llm)
  }

  lemma RunCons(s: State, message: string, rest: seq<string>, currentYear: nat, llm: Llm)
    requires Inv(s)
    ensures Inv(Stored(Transition(s, message, currentYear, llm)))
    ensures Run(s, [message] + rest, currentYear, llm)
         == Run(Stored(Transition(s, message, currentYear, llm)), rest, currentYear, llm)
  {
    TransitionKeepsInv(s, message, currentYear, llm);
    assert ([message] + rest)[1..] == rest;
  }

  /** One "done" in the guided flow, as the store sees it: the next step of
      the same workflow, or the completed booking after the last step. */
  lemma DoneStep(s: State, message: string, currentYear: nat, llm: Llm)
    requires Inv(s) && s.phase == GuidedFlow && SaysDone(NormalizeInput(message))
    ensures var n := Stored(Transition(s, message, currentYear, llm));
      && Inv(n)
      && (s.step + 1 < |ActiveSteps(s)| ==>
            n.phase == GuidedFlow && n.step == s.step + 1 && n.flow.Some? && n.source.Some?
            && ActiveSteps(n) == ActiveSteps(s))
      && (s.step + 1 == |ActiveSteps(s)| ==> n.phase == AwaitingBookingIntent && Unconfigured(n))
  {
    var m := Transition(s, message, currentYear, llm);
    GuidedOutcome(s, message, currentYear, llm);
    RestartExactly(s, message, currentYear, llm);
    TransitionKeepsInv(s, message, currentYear, llm);
    if s.step + 1 < |ActiveSteps(s)| {
      SameWorkflow(s, m.next);
    }
  }

  /** Saying "done" once per remaining step completes the booking: the
      session is back to asking for a booking intent, with every choice
      forgotten. */
  lemma {:induction false} FinishingTheWorkflow(s: State, messages: seq<string>, currentYear: nat, llm: Llm)
    requires Inv(s) && s.phase == GuidedFlow
    requires |messages| == |ActiveSteps(s)| - s.step
    requires forall i :: 0 <= i < |messages| ==> SaysDone(NormalizeInput(messages[i]))
    ensures Run(s, messages, currentYear, llm).phase == AwaitingBookingIntent
    ensures Unconfigured(Run(s, messages, currentYear, llm))
    decreases |messages|
  {
    var n := Stored(Transition(s, messages[0], currentYear, llm));
    DoneStep(s, messages[0], currentYear, llm);
    assert Run(s, messages, currentYear, llm) == Run(n, messages[1..], currentYear, llm);
    if |messages| == 1 {
      assert Run(n, messages[1..], currentYear, llm) == n;
    } else {
      FinishingTheWorkflow(n, messages[1..], currentYear, llm);
    }
  }

  /** The record stored after one message. */
  function After(s: State, message: string, currentYear: nat, llm: Llm): (r: State)
    requires Inv(s)
    ensures Inv(r)
  {
    TransitionKeepsInv(s, message, currentYear, llm);
    Stored(Transition(s, message, currentYear, llm))
  }

  lemma AfterGreeting(s: State, message: string, currentYear: nat, llm: Llm)
    requires Inv(s) && s.phase == Greeting
    ensures After(s, message, currentYear, llm).phase == AwaitingBookingIntent
  {
    GreetingOutcome(s, message, currentYear, llm);
    RestartExactly(s, message, currentYear, llm);
  }

  lemma AfterBookingKind(s: State, message: string, currentYear: nat, llm: Llm)
    requires Inv(s) && s.phase == AwaitingBookingIntent && DetectBookingType(NormalizeInput(message)).Some?
    ensures var t := After(s, message, currentYear, llm);
      t.phase == AwaitingSource && t.flow == DetectBookingType(NormalizeInput(message))
  {
    IntentOutcome(s, message, currentYear, llm);
    RestartExactly(s, message, currentYear, llm);
  }

  lemma AfterSource(s: State, message: string, currentYear: nat, llm: Llm)
    requires Inv(s) && s.phase == AwaitingSource && DetectSource(NormalizeInput(message)).Some?
    ensures var t := After(s, message, currentYear, llm);
      && t.flow == s.flow && t.source == DetectSource(NormalizeInput(message))
      && t.phase == (if s.flow == Some(Flight) then AwaitingFlightType else GuidedFlow) && t.step == 0
  {
    SourceOutcome(s, message, currentYear, llm);
    RestartExactly(s, message, currentYear, llm);
  }

  lemma AfterTripKind(s: State, message: string, currentYear: nat, llm: Llm)
    requires Inv(s) && s.phase == AwaitingFlightType && DetectFlightType(NormalizeInput(message)).Some?
    ensures var t := After(s, message, currentYear, llm);
      && t.phase == AwaitingDepartureDate && t.source == s.source
      && t.flightType == DetectFlightType(NormalizeInput(message))
  {
    FlightTypeOutcome(s, message, currentYear, llm);
    RestartExactly(s, message, currentYear, llm);
  }

  lemma AfterOneWayDate(s: State, message: string, currentYear: nat, llm: Llm)
    requires Inv(s) && s.phase == AwaitingDepartureDate && s.flightType == Some(OneWay)
    requires ParseDate(message, currentYear).Some? && ValidDate(ParseDate(message, currentYear).value)
    ensures var t := After(s, message, currentYear, llm);
      && t.phase == GuidedFlow && t.step == 0 && t.flow == s.flow && t.source == s.source
      && t.flightType == s.flightType && t.departureDate == ParseDate(message, currentYear) && t.returnDate.None?
  {
    DepartureOutcome(s, message, currentYear, llm);
    RestartExactly(s, message, currentYear, llm);
  }

  lemma AfterRoundTripDeparture(s: State, message: string, currentYear: nat, llm: Llm)
    requires Inv(s) && s.phase == AwaitingDepartureDate && s.flightType == Some(RoundTrip)
    requires ParseDate(message, currentYear).Some? && ValidDate(ParseDate(message, currentYear).value)
    ensures var t := After(s, message, currentYear, llm);
      && t.phase == AwaitingReturnDate && t.flow == s.flow && t.source == s.source
      && t.flightType == s.flightType && t.departureDate == ParseDate(message, currentYear)
  {
    DepartureOutcome(s, message, currentYear, llm);
    RestartExactly(s, message, currentYear, llm);
  }

  lemma AfterReturnDate(s: State, message: string, currentYear: nat, llm: Llm)
    requires Inv(s) && s.phase == AwaitingReturnDate
    requires ParseDate(message, currentYear).Some? && ValidDate(ParseDate(message, currentYear).value)
    requires IsReturnDateValid(s.departureDate, ParseDate(message, currentYear))
    ensures var t := After(s, message, currentYear, llm);
      && t.phase == GuidedFlow && t.step == 0 && t.flow == s.flow && t.source == s.source
      && t.flightType == s.flightType && t.departureDate == s.departureDate
      && t.returnDate == ParseDate(message, currentYear)
      && ActiveSteps(t) == Steps(Flight, s.source.value,
                                 DateRange(s.departureDate.value, ParseDate(message, currentYear).value))
  {
    ReturnOutcome(s, message, currentYear, llm);
    RestartExactly(s, message, currentYear, llm);
    assert ParseDate(message, currentYear).value != "";
  }

  lemma SplitThree<T>(a: T, b: T, c: T, rest: seq<T>)
    ensures [a, b, c] + rest == [a] + ([b] + ([c] + rest))
  {
  }

  lemma SplitSix<T>(a: T, b: T, c: T, d: T, e: T, f: T)
    ensures [a, b, c, d, e, f] == [a] + ([b] + ([c] + ([d] + ([e] + ([f] + [])))))
  {
  }

  lemma SplitFive<T>(a: T, b: T, c: T, d: T, e: T)
    ensures [a, b, c, d, e] == [a] + ([b] + ([c] + ([d] + ([e] + []))))
  {
  }

  /** A hotel or car booking from a new session: any first message, one
      naming the booking type, one naming the source, then one "done" per
      step of that workflow, ends the booking and leaves the session asking
      for the next one. */
  lemma HotelOrCarConversation(greeting: string, kind: string, system: string, dones: seq<string>,
                               currentYear: nat, llm: Llm)
    requires DetectBookingType(NormalizeInput(kind)).Some?
    requires DetectBookingType(NormalizeInput(kind)) != Some(Flight)
    requires DetectSource(NormalizeInput(system)).Some?
    requires |dones| == StepCount(DetectBookingType(NormalizeInput(kind)).value, DetectSource(NormalizeInput(system)).value)
    requires forall i :: 0 <= i < |dones| ==> SaysDone(NormalizeInput(dones[i]))
    ensures var r := Run(DefaultState, [greeting, kind, system] + dones, currentYear, llm);
      r.phase == AwaitingBookingIntent && Unconfigured(r)
  {
    var s0 := DefaultState;
    var s1 := After(s0, greeting, currentYear, llm);
    AfterGreeting(s0, greeting, currentYear, llm);
    var s2 := After(s1, kind, currentYear, llm);
    AfterBookingKind(s1, kind, currentYear, llm);
    var s3 := After(s2, system, currentYear, llm);
    AfterSource(s2, system, currentYear, llm);
    SplitThree(greeting, kind, system, dones);
    RunCons(s0, greeting, [kind] + ([system] + dones), currentYear, llm);
    RunCons(s1, kind, [system] + dones, currentYear, llm);
    RunCons(s2, system, dones, currentYear, llm);
    FinishingTheWorkflow(s3, dones, currentYear, llm);
  }

  /** A one-way flight from a new session: a first message, one naming
      flights, one naming the source, one asking for a one-way trip, and a
      date that parses and exists, reach step 0 of the flight workflow for
      that date. */
  lemma OneWayFlightConversation(greeting: string, kind: string, system: string, trip: string, date: string,
                                 currentYear: nat, llm: Llm)
    requires DetectBookingType(NormalizeInput(kind)) == Some(Flight)
    requires DetectSource(NormalizeInput(system)).Some?
    requires DetectFlightType(NormalizeInput(trip)) == Some(OneWay)
    requires ParseDate(date, currentYear).Some? && ValidDate(ParseDate(date, currentYear).value)
    ensures var r := Run(DefaultState, [greeting, kind, system, trip, date], currentYear, llm);
      && r.phase == GuidedFlow && r.step == 0 && r.flow == Some(Flight)
      && r.source == DetectSource(NormalizeInput(system)) && r.flightType == Some(OneWay)
      && r.departureDate == ParseDate(date, currentYear) && r.returnDate.None?
  {
    var s0 := DefaultState;
    var s1 := After(s0, greeting, currentYear, llm);
    AfterGreeting(s0, greeting, currentYear, llm);
    var s2 := After(s1, kind, currentYear, llm);
    AfterBookingKind(s1, kind, currentYear, llm);
    var s3 := After(s2, system, currentYear, llm);
    AfterSource(s2, system, currentYear, llm);
    var s4 := After(s3, trip, currentYear, llm);
    AfterTripKind(s3, trip, currentYear, llm);
    var s5 := After(s4, date, currentYear, llm);
    AfterOneWayDate(s4, date, currentYear, llm);
    SplitFive(greeting, kind, system, trip, date);
    RunCons(s0, greeting, [kind] + ([system] + ([trip] + ([date] + []))), currentYear, llm);
    RunCons(s1, kind, [system] + ([trip] + ([date] + [])), currentYear, llm);
    RunCons(s2, system, [trip] + ([date] + []), currentYear, llm);
    RunCons(s3, trip, [date] + [], currentYear, llm);
    RunCons(s4, date, [], currentYear, llm);
  }

  /** A round-trip flight from a new session: a first message, one naming
      flights, one naming the source, one asking for a round trip, a
      departure date that parses and exists, and a return date that parses,
      exists and comes later, reach step 0 of the flight workflow over the
      range of the two dates. */
  lemma RoundTripFlightConversation(greeting: string, kind: string, system: string, trip: string,
                                    departure: string, ret: string, currentYear: nat, llm: Llm)
    requires DetectBookingType(NormalizeInput(kind)) == Some(Flight)
    requires DetectSource(NormalizeInput(system)).Some?
    requires DetectFlightType(NormalizeInput(trip)) == Some(RoundTrip)
    requires ParseDate(departure, currentYear).Some? && ValidDate(ParseDate(departure, currentYear).value)
    requires ParseDate(ret, currentYear).Some? && ValidDate(ParseDate(ret, currentYear).value)
    requires IsReturnDateValid(ParseDate(departure, currentYear), ParseDate(ret, currentYear))
    ensures var r := Run(DefaultState, [greeting, kind, system, trip, departure, ret], currentYear, llm);
      && r.phase == GuidedFlow && r.step == 0 && r.flow == Some(Flight)
      && r.source == DetectSource(NormalizeInput(system)) && r.flightType == Some(RoundTrip)
      && r.departureDate == ParseDate(departure, currentYear) && r.returnDate == ParseDate(ret, currentYear)
      && ActiveSteps(r) == Steps(Flight, r.source.value,
                                 DateRange(ParseDate(departure, currentYear).value, ParseDate(ret, currentYear).value))
  {
    var s0 := DefaultState;
    var s1 := After(s0, greeting, currentYear, llm);
    AfterGreeting(s0, greeting, currentYear, llm);
    var s2 := After(s1, kind, currentYear, llm);
    AfterBookingKind(s1, kind, currentYear, llm);
    var s3 := After(s2, system, currentYear, llm);
    AfterSource(s2, system, currentYear, llm);
    var s4 := After(s3, trip, currentYear, llm);
    AfterTripKind(s3, trip, currentYear, llm);
    var s5 := After(s4, departure, currentYear, llm);
    AfterRoundTripDeparture(s4, departure, currentYear, llm);
    var s6 := After(s5, ret, currentYear, llm);
    AfterReturnDate(s5, ret, currentYear, llm);
    SplitSix(greeting, kind, system, trip, departure, ret);
    RunCons(s0, greeting, [kind] + ([system] + ([trip] + ([departure] + ([ret] + [])))), currentYear, llm);
    RunCons(s1, kind, [system] + ([trip] + ([departure] + ([ret] + []))), currentYear, llm);
    RunCons(s2, system, [trip] + ([departure] + ([ret] + [])), currentYear, llm);
    RunCons(s3, trip, [departure] + ([ret] + []), currentYear, llm);
    RunCons(s4, departure, [ret] + [], currentYear, llm);
    RunCons(s5, ret, [], currentYear, llm);
  }

  /** After a reset the session greets again, whatever is said next. */
  lemma ResetSessionGreets(s: State, message: string, next: string, currentYear: nat, llm: Llm)
    requires Inv(s)
    requires Transition(s, message, currentYear, llm).restart
    ensures var after := Stored(Transition(s, message, currentYear, llm));
      Inv(after) && Transition(after, next, currentYear, llm).reply == Welcome
  {
    RestartExactly(s, message, currentYear, llm);
    GreetingOutcome(DefaultState, next, currentYear, llm);
  }
}
