/**
 * The speech handler of gesture_video_project: the same state and worker
 * iteration as the newer copy, with all three inboxes drained, the report
 * inbox included.
 */
module GestureVideoProject {
  import opened Mailbox
  import opened Dispatch
  import Phrases

  /** The calls a user of this handler can make, and one worker iteration. */
  datatype Call =
    | Iterate(outcome: Outcome)
    | GetSpeechText
    | CheckForCommand
    | CheckForReportCommand
    | CheckTimeQuery
    | PauseListening
    | ResumeListening
    | Stop

  /** The state after one call. */
  function Apply(s: HandlerState, c: Call): HandlerState {
    match c
    case Iterate(o) => Step(s, o)
    case GetSpeechText => s
    case CheckForCommand => s.(command := None)
    case CheckForReportCommand => s.(report := None)
    case CheckTimeQuery => s.(timeQuery := None)
    case PauseListening => s.(isListening := false)
    case ResumeListening => s.(isListening := true)
    case Stop => s.(running := false)
  }

  /** The state after a sequence of calls, in order. */
  function Run(s: HandlerState, calls: seq<Call>): HandlerState
    decreases |calls|
  {
    if |calls| == 0 then s else Run(Apply(s, calls[0]), calls[1..])
  }

  class SpeechHandler {
    var status: string
    var command: Option<string>
    var report: Option<string>
    var timeQuery: Option<string>
    var isListening: bool
    var running: bool

    /** The handler's fields as one value. */
    function State(): HandlerState
      reads this
    {
      HandlerState(status, command, report, timeQuery, isListening, running)
    }

    /** A ready handler: greeting status, three empty inboxes, running and listening. */
    constructor ()
      ensures State() == Initial()
      ensures status == ReadyMessage
      ensures command == None && report == None && timeQuery == None
      ensures running && isListening
    {
      status := ReadyMessage;
      command, report, timeQuery := None, None, None;
      running, isListening := true, true;
    }

    /** One iteration of the worker loop, with what the recognizer returned. */
    method Iterate(outcome: Outcome)
      modifies this
      ensures State() == Step(old(State()), outcome)
    {
      if running && isListening {
        match outcome
        case Heard(text) =>
          status := text;
          var timeMatch := Phrases.ContainsAny(text, Phrases.TimePhrases);
          if timeMatch && timeQuery.None? {
            timeQuery := Some(text);
            return;
          }
          if Phrases.ContainsAny(text, Phrases.CommandPhrases) {
            if command.None? {
              command := Some(text);
            }
          } else if Phrases.ContainsAny(text, Phrases.ReportPhrases) {
            if report.None? {
              report := Some(text);
            }
          }
        case WaitTimeout =>
        case UnknownValue =>
          status := NotCaughtMessage;
        case RequestError =>
          status := ServiceUnavailableMessage;
        case OtherFailure =>
          status := ProcessingErrorMessage;
      }
    }

    /**
     * The worker loop fed with successive recognizer outcomes: it iterates
     * while the handler is running, through as many outcomes as are given.
     */
    method SpeechWorker(outcomes: seq<Outcome>)
      modifies this
      ensures State() == StepAll(old(State()), outcomes)
    {
      var i := 0;
      while running && i < |outcomes|
        invariant 0 <= i <= |outcomes|
        invariant State() == StepAll(old(State()), outcomes[..i])
      {
        StepAllAppend(old(State()), outcomes[..i], [outcomes[i]]);
        assert outcomes[..i + 1] == outcomes[..i] + [outcomes[i]];
        Iterate(outcomes[i]);
        i := i + 1;
      }
      StepAllAppend(old(State()), outcomes[..i], outcomes[i..]);
      assert outcomes[..i] + outcomes[i..] == outcomes;
      if i < |outcomes| {
        InactiveStepAllIsNoOp(State(), outcomes[i..]);
      }
    }

    /** The current status text. */
    method GetSpeechText() returns (text: string)
      ensures text == status
    {
      text := status;
    }

    /** Takes the pending command, leaving its inbox empty; `None` and no change when empty. */
    method CheckForCommand() returns (r: Option<string>)
      modifies this
      ensures r == old(command)
      ensures State() == Apply(old(State()), Call.CheckForCommand)
      ensures old(command).None? ==> State() == old(State())
    {
      r := command;
      command := None;
    }

    /** Takes the pending report request, leaving its inbox empty; `None` and no change when empty. */
    method CheckForReportCommand() returns (r: Option<string>)
      modifies this
      ensures r == old(report)
      ensures State() == Apply(old(State()), Call.CheckForReportCommand)
      ensures old(report).None? ==> State() == old(State())
    {
      r := report;
      report := None;
    }

    /** Takes the pending time query, leaving its inbox empty; `None` and no change when empty. */
    method CheckTimeQuery() returns (r: Option<string>)
      modifies this
      ensures r == old(timeQuery)
      ensures State() == Apply(old(State()), Call.CheckTimeQuery)
      ensures old(timeQuery).None? ==> State() == old(State())
    {
      r := timeQuery;
      timeQuery := None;
    }

    /** Stops listening; iterations then change nothing. */
    method PauseListening()
      modifies this
      ensures State() == Apply(old(State()), Call.PauseListening)
    {
      isListening := false;
    }

    /** Listens again. */
    method ResumeListening()
      modifies this
      ensures State() == Apply(old(State()), Call.ResumeListening)
    {
      isListening := true;
    }

    /** Ends the worker loop. */
    method Stop()
      modifies this
      ensures State() == Apply(old(State()), Call.Stop)
    {
      running := false;
    }
  }

  /** A drain of an empty inbox changes nothing. */
  lemma EmptyChecksChangeNothing(s: HandlerState)
    ensures s.command.None? ==> Apply(s, CheckForCommand) == s
    ensures s.report.None? ==> Apply(s, CheckForReportCommand) == s
    ensures s.timeQuery.None? ==> Apply(s, CheckTimeQuery) == s
  {
  }

  /**
   * A report request (a report phrase, no command phrase, and no time phrase
   * unless the time slot is full) heard with an empty report inbox is put
   * there, and the next report drain hands back exactly that text and
   * empties the inbox again.
   */
  lemma ReportRoundTrip(s: HandlerState, text: string)
    requires Active(s) && s.report.None?
    requires Phrases.ContainsAny(text, Phrases.ReportPhrases)
    requires !Phrases.ContainsAny(text, Phrases.CommandPhrases)
    requires !Phrases.ContainsAny(text, Phrases.TimePhrases) || s.timeQuery.Some?
    ensures Apply(s, Iterate(Heard(text))).report == Some(text)
    ensures Apply(Apply(s, Iterate(Heard(text))), CheckForReportCommand)
         == s.(status := text)
  {
  }

  /**
   * The report inbox is emptied only by the report drain: through calls that
   * do not include it, a held report request stays where it is.
   */
  lemma {:induction false} ReportHeldUntilChecked(s: HandlerState, calls: seq<Call>, v: string)
    requires s.report == Some(v)
    requires forall k :: 0 <= k < |calls| ==> !calls[k].CheckForReportCommand?
    ensures Run(s, calls).report == Some(v)
    decreases |calls|
  {
    if |calls| > 0 {
      if calls[0].Iterate? {
        StepOnlyFillsEmptySlots(s, calls[0].outcome);
      }
      ReportHeldUntilChecked(Apply(s, calls[0]), calls[1..], v);
    }
  }

  /**
   * After Stop no call restarts the loop, so every later iteration is a
   * no-op: running stays false whatever is called.
   */
  lemma {:induction false} StopIsFinal(s: HandlerState, calls: seq<Call>)
    requires !s.running
    ensures !Run(s, calls).running
    ensures forall o :: Step(Run(s, calls), o) == Run(s, calls)
    decreases |calls|
  {
    if |calls| > 0 {
      if calls[0].Iterate? {
        StepKeepsFlags(s, calls[0].outcome);
      }
      StopIsFinal(Apply(s, calls[0]), calls[1..]);
    }
  }
}
