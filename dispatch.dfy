/**
 * One iteration of the speech handler's worker loop, on values: what the
 * recognizer delivered, how the recognized text is routed to one of the three
 * single-slot inboxes, and which status message each failure writes. Both
 * copies of the handler share this step; the classes that hold the state
 * are in handler_new.dfy and handler_original.dfy.
 */
module Dispatch {
  import opened Mailbox
  import opened Phrases

  const ReadyMessage := "System ready. Waiting for your command..."
  const NotCaughtMessage := "Sorry, I didn't catch that. Please try again."
  const ServiceUnavailableMessage := "Speech service unavailable."
  const ProcessingErrorMessage := "Processing error occurred."

  /**
   * What one listen-and-recognize call yields: lowercased recognized text, or
   * one of the four ways it can fail (no speech before the timeout, speech
   * that could not be understood, the recognition service failing, and any
   * other exception).
   */
  datatype Outcome =
    | Heard(text: string)
    | WaitTimeout
    | UnknownValue
    | RequestError
    | OtherFailure

  /** The handler's fields that its methods read and write. */
  datatype HandlerState = HandlerState(
    status: string,
    command: Option<string>,
    report: Option<string>,
    timeQuery: Option<string>,
    isListening: bool,
    running: bool)

  /** The state right after construction. */
  function Initial(): HandlerState {
    HandlerState(ReadyMessage, None, None, None, true, true)
  }

  /** An iteration of the worker loop runs and listens. */
  predicate Active(s: HandlerState) {
    s.running && s.isListening
  }

  /** Where a recognized text is sent. */
  datatype Route = ToTimeQuery | ToCommand | ToReport | Unrouted

  /**
   * The routing decision: a time phrase wins while the time slot is empty;
   * otherwise a command phrase, else a report phrase, decides.
   */
  function Classify(text: string, timeSlotEmpty: bool): Route {
    if ContainsAny(text, TimePhrases) && timeSlotEmpty then ToTimeQuery
    else if ContainsAny(text, CommandPhrases) then ToCommand
    else if ContainsAny(text, ReportPhrases) then ToReport
    else Unrouted
  }

  /** Publishes `text` as the status, then offers it to the slot it is routed to. */
  function Deliver(s: HandlerState, text: string): HandlerState {
    var heard := s.(status := text);
    match Classify(text, s.timeQuery.None?)
    case ToTimeQuery => heard.(timeQuery := Offer(s.timeQuery, text))
    case ToCommand => heard.(command := Offer(s.command, text))
    case ToReport => heard.(report := Offer(s.report, text))
    case Unrouted => heard
  }

  /**
   * One pass of the worker loop with the recognizer's outcome. Once the loop
   * has stopped, or while listening is paused, nothing happens.
   */
  function Step(s: HandlerState, o: Outcome): HandlerState {
    if !Active(s) then s
    else
      match o
      case Heard(text) => Deliver(s, text)
      case WaitTimeout => s
      case UnknownValue => s.(status := NotCaughtMessage)
      case RequestError => s.(status := ServiceUnavailableMessage)
      case OtherFailure => s.(status := ProcessingErrorMessage)
  }

  /** Successive passes of the worker loop over the outcomes in order. */
  function StepAll(s: HandlerState, outcomes: seq<Outcome>): HandlerState
    decreases |outcomes|
  {
    if |outcomes| == 0 then s else StepAll(Step(s, outcomes[0]), outcomes[1..])
  }

  // ---------------------------------------------------------------------
  // Classification

  /** The time route is taken exactly when a time phrase matches and the time slot is empty. */
  lemma ClassifyTimeQuery(text: string, timeSlotEmpty: bool)
    ensures Classify(text, timeSlotEmpty) == ToTimeQuery
        <==> ContainsAny(text, TimePhrases) && timeSlotEmpty
  {
  }

  /** The command route is taken exactly when a command phrase matches and the time route is not taken. */
  lemma ClassifyCommand(text: string, timeSlotEmpty: bool)
    ensures Classify(text, timeSlotEmpty) == ToCommand
        <==> ContainsAny(text, CommandPhrases)
             && !(ContainsAny(text, TimePhrases) && timeSlotEmpty)
  {
  }

  /** The report route needs a report phrase and no command phrase: command takes precedence. */
  lemma ClassifyReport(text: string, timeSlotEmpty: bool)
    ensures Classify(text, timeSlotEmpty) == ToReport
        <==> ContainsAny(text, ReportPhrases) && !ContainsAny(text, CommandPhrases)
             && !(ContainsAny(text, TimePhrases) && timeSlotEmpty)
  {
  }

  // ---------------------------------------------------------------------
  // One iteration

  /** A stopped or paused handler is left exactly as it was. */
  lemma InactiveStepIsNoOp(s: HandlerState, o: Outcome)
    requires !Active(s)
    ensures Step(s, o) == s
  {
  }

  /** No iteration touches the two flags. */
  lemma StepKeepsFlags(s: HandlerState, o: Outcome)
    ensures Step(s, o).isListening == s.isListening
    ensures Step(s, o).running == s.running
  {
  }

  /** Recognized text always becomes the status text. */
  lemma HeardSetsStatus(s: HandlerState, text: string)
    requires Active(s)
    ensures Step(s, Heard(text)).status == text
  {
  }

  /**
   * A time phrase with an empty time slot: the text goes to the time slot and
   * the command and report slots are not consulted.
   */
  lemma TimeQueryTakesPriority(s: HandlerState, text: string)
    requires Active(s) && s.timeQuery.None?
    requires ContainsAny(text, TimePhrases)
    ensures Step(s, Heard(text)) == s.(status := text, timeQuery := Some(text))
  {
  }

  /**
   * With the time slot full, time phrases make no difference: the time slot
   * keeps its value, and the text is matched against the command phrases and
   * then the report phrases, each put landing only in an empty slot.
   */
  lemma FullTimeSlotFallsThrough(s: HandlerState, text: string)
    requires Active(s) && s.timeQuery.Some?
    ensures Step(s, Heard(text)).timeQuery == s.timeQuery
    ensures ContainsAny(text, CommandPhrases) ==>
      Step(s, Heard(text)) == s.(status := text, command := if s.command.None? then Some(text) else s.command)
    ensures !ContainsAny(text, CommandPhrases) && ContainsAny(text, ReportPhrases) ==>
      Step(s, Heard(text)) == s.(status := text, report := if s.report.None? then Some(text) else s.report)
    ensures !ContainsAny(text, CommandPhrases) && !ContainsAny(text, ReportPhrases) ==>
      Step(s, Heard(text)) == s.(status := text)
  {
  }

  /**
   * "tell me about this" is both a command phrase and, through "tell me
   * about", a time phrase; while the time slot is empty it is a time query and
   * never reaches the command slot.
   */
  lemma TellMeAboutThisIsTimeQuery(s: HandlerState, text: string)
    requires Active(s) && s.timeQuery.None?
    requires Contains(text, "tell me about this")
    ensures ContainsAny(text, CommandPhrases)
    ensures Step(s, Heard(text)) == s.(status := text, timeQuery := Some(text))
  {
    TellMeAboutThisIsAlsoTime(text);
  }

  /** A text with a command phrase never reaches the report slot, even when the command slot is full. */
  lemma CommandNeverReported(s: HandlerState, text: string)
    requires ContainsAny(text, CommandPhrases)
    ensures Step(s, Heard(text)).report == s.report
  {
  }

  /**
   * Every slot either keeps its value or, if it was empty, receives the text:
   * a full slot is never overwritten, and no slot is ever emptied by an
   * iteration. At most one slot changes.
   */
  lemma StepOnlyFillsEmptySlots(s: HandlerState, o: Outcome)
    ensures var t := Step(s, o);
      && (t.command == s.command || (s.command.None? && o.Heard? && t.command == Some(o.text)))
      && (t.report == s.report || (s.report.None? && o.Heard? && t.report == Some(o.text)))
      && (t.timeQuery == s.timeQuery || (s.timeQuery.None? && o.Heard? && t.timeQuery == Some(o.text)))
    ensures var t := Step(s, o);
      (t.command != s.command ==> t.report == s.report && t.timeQuery == s.timeQuery)
      && (t.report != s.report ==> t.timeQuery == s.timeQuery)
  {
  }

  /** A text that matches no phrase only becomes the status. */
  lemma UnmatchedOnlySetsStatus(s: HandlerState, text: string)
    requires Active(s)
    requires !ContainsAny(text, TimePhrases) && !ContainsAny(text, CommandPhrases)
    requires !ContainsAny(text, ReportPhrases)
    ensures Step(s, Heard(text)) == s.(status := text)
  {
  }

  /**
   * Failures touch no slot: a wait timeout changes nothing, the other three
   * write their fixed status messages.
   */
  lemma FailureOnlySetsStatus(s: HandlerState, o: Outcome)
    requires Active(s) && !o.Heard?
    ensures o.WaitTimeout? ==> Step(s, o) == s
    ensures o.UnknownValue? ==> Step(s, o) == s.(status := NotCaughtMessage)
    ensures o.RequestError? ==> Step(s, o) == s.(status := ServiceUnavailableMessage)
    ensures o.OtherFailure? ==> Step(s, o) == s.(status := ProcessingErrorMessage)
  {
  }

  /** The report request used below holds no time phrase: each lacks a letter of it. */
  lemma ReportRequestHasNoTimePhrase()
    ensures !ContainsAny("what's the report please", TimePhrases)
  {
    var t := "what's the report please";
    forall k | 0 <= k < |TimePhrases| ensures !Contains(t, TimePhrases[k]) {
      var missing := ['d', 'c', 'd', 'c', 'm', 'm'][k];
      MissingCharNotContained(t, TimePhrases[k], missing);
    }
  }

  /** The report request used below holds no command phrase: each lacks a letter of it. */
  lemma ReportRequestHasNoCommandPhrase()
    ensures !ContainsAny("what's the report please", CommandPhrases)
  {
    var t := "what's the report please";
    forall k | 0 <= k < |CommandPhrases| ensures !Contains(t, CommandPhrases[k]) {
      var missing := ['i', 'd', 'i', 'm', 'd', 'c'][k];
      MissingCharNotContained(t, CommandPhrases[k], missing);
    }
  }

  /**
   * A report request heard by a freshly constructed handler lands in the
   * report slot alone.
   */
  lemma ReportRequestFromInitial()
    ensures Step(Initial(), Heard("what's the report please"))
         == Initial().(status := "what's the report please", report := Some("what's the report please"))
  {
    ReportRequestHasNoTimePhrase();
    ReportRequestHasNoCommandPhrase();
    PrefixContained("what's the report please", ReportPhrases[0]);
  }

  // ---------------------------------------------------------------------
  // Many iterations

  /** Splitting the outcomes splits the run. */
  lemma {:induction false} StepAllAppend(s: HandlerState, xs: seq<Outcome>, ys: seq<Outcome>)
    ensures StepAll(s, xs + ys) == StepAll(StepAll(s, xs), ys)
    decreases |xs|
  {
    if |xs| > 0 {
      assert (xs + ys)[1..] == xs[1..] + ys;
      StepAllAppend(Step(s, xs[0]), xs[1..], ys);
    } else {
      assert xs + ys == ys;
    }
  }

  /** Once stopped or paused, any number of iterations leaves the state as it was. */
  lemma {:induction false} InactiveStepAllIsNoOp(s: HandlerState, outcomes: seq<Outcome>)
    requires !Active(s)
    ensures StepAll(s, outcomes) == s
    decreases |outcomes|
  {
    if |outcomes| > 0 {
      InactiveStepIsNoOp(s, outcomes[0]);
      InactiveStepAllIsNoOp(s, outcomes[1..]);
    }
  }

  /** A value held in a slot survives every run of the worker loop. */
  lemma {:induction false} StepAllKeepsHeldValues(s: HandlerState, outcomes: seq<Outcome>)
    ensures s.command.Some? ==> StepAll(s, outcomes).command == s.command
    ensures s.report.Some? ==> StepAll(s, outcomes).report == s.report
    ensures s.timeQuery.Some? ==> StepAll(s, outcomes).timeQuery == s.timeQuery
    decreases |outcomes|
  {
    if |outcomes| > 0 {
      StepOnlyFillsEmptySlots(s, outcomes[0]);
      StepAllKeepsHeldValues(Step(s, outcomes[0]), outcomes[1..]);
    }
  }
}
