/**
 * The interview-practice screen's live session: start guard, the `onopen` and
 * `onmessage` callbacks, teardown on stop/error/close, and the feedback request.
 * Each callback is one atomic step; the device clock is an input.
 */
module ConversationCoach {
  import opened Wrappers
  import opened Text
  import opened Transcript
  import opened Playback
  import opened LiveMessage

  const Connecting := "Connecting to AI Coach..."

  const StatusIdle := "Click 'Start Session' to begin your mock interview."
  const StatusInitializing := "Initializing..."
  const StatusMicFailed := "Failed to access microphone. Please grant permission and try again."
  const StatusListening := "Listening... Speak now."
  const StatusGenerating := "Session ended. Generating your performance feedback..."
  const StatusEnded := "Session ended. Click 'Start Session' to practice again."
  const StatusReportReady := "Feedback report generated. Click 'Start Session' to practice again."
  const StatusReportFailed := "Could not generate feedback report. Please try another session."

  class CoachSession {
    var isSessionActive: bool
    var isGeneratingFeedback: bool
    var transcription: seq<Entry>
    var statusMessage: string
    var feedbackReport: string
    // Refs, true when they hold an object.
    var session: bool
    var mediaStream: bool
    var scriptProcessor: bool
    var streamSource: bool
    var inputContext: ContextRef
    var outputContext: ContextRef
    // Pending transcription fragments of the current turn.
    var pendingInput: string
    var pendingOutput: string
    const playback: PlaybackQueue

    ghost predicate Valid()
      reads this, playback
    {
      playback.Valid()
    }

    /** Everything a session holds has been let go. */
    ghost predicate Released()
      reads this, playback
    {
      !session && !mediaStream && !scriptProcessor && !streamSource && playback.sources == {}
    }

    constructor ()
      ensures Valid() && fresh(playback)
      ensures !isSessionActive && !isGeneratingFeedback && transcription == [] && feedbackReport == ""
      ensures statusMessage == StatusIdle
      ensures Released() && inputContext == NoContext && outputContext == NoContext
      ensures pendingInput == "" && pendingOutput == "" && playback.nextStartTime == 0.0
    {
      isSessionActive, isGeneratingFeedback := false, false;
      transcription, statusMessage, feedbackReport := [], StatusIdle, "";
      session, mediaStream, scriptProcessor, streamSource := false, false, false, false;
      inputContext, outputContext := NoContext, NoContext;
      pendingInput, pendingOutput := "", "";
      playback := new PlaybackQueue();
    }

    /** `handleStartSession`; `micGranted` is the outcome of the microphone permission request. */
    method Start(micGranted: bool)
      requires Valid()
      modifies this
      ensures Valid()
      ensures old(isSessionActive) ==> unchanged(this)
      ensures !old(isSessionActive) ==>
        && feedbackReport == "" && transcription == [Entry(System, Connecting)]
        && isGeneratingFeedback == old(isGeneratingFeedback)
        && scriptProcessor == old(scriptProcessor) && streamSource == old(streamSource)
        && pendingInput == old(pendingInput) && pendingOutput == old(pendingOutput)
        && (micGranted ==>
              && statusMessage == StatusInitializing && isSessionActive
              && session && mediaStream && inputContext == Running && outputContext == Running)
        && (!micGranted ==>
              && statusMessage == StatusMicFailed && !isSessionActive
              && session == old(session) && mediaStream == old(mediaStream)
              && inputContext == old(inputContext) && outputContext == old(outputContext))
    {
      if isSessionActive {
        return;
      }
      feedbackReport := "";
      statusMessage := StatusInitializing;
      transcription := [Entry(System, Connecting)];
      if !micGranted {
        statusMessage := StatusMicFailed;
        return;
      }
      mediaStream := true;
      inputContext, outputContext := Running, Running;
      session := true;
      isSessionActive := true;
    }

    /**
     * `handleStartSession` with the playback cursor rewound when a session starts. Each session
     * opens a new output context whose clock starts at 0, so the cursor of the previous session
     * no longer means anything; anything still queued on it is stopped.
     */
    method StartFresh(micGranted: bool)
      requires Valid()
      modifies this, playback`sources, playback`stopped, playback`nextStartTime
      ensures Valid()
      ensures old(isSessionActive) ==> unchanged(this) && unchanged(playback)
      ensures !old(isSessionActive) ==>
        && feedbackReport == "" && transcription == [Entry(System, Connecting)]
        && isGeneratingFeedback == old(isGeneratingFeedback)
        && scriptProcessor == old(scriptProcessor) && streamSource == old(streamSource)
        && pendingInput == old(pendingInput) && pendingOutput == old(pendingOutput)
        && (micGranted ==>
              && statusMessage == StatusInitializing && isSessionActive
              && session && mediaStream && inputContext == Running && outputContext == Running
              && playback.nextStartTime == 0.0 && playback.sources == {}
              && playback.stopped == old(playback.stopped) + old(playback.sources))
        && (!micGranted ==>
              && statusMessage == StatusMicFailed && !isSessionActive
              && session == old(session) && mediaStream == old(mediaStream)
              && inputContext == old(inputContext) && outputContext == old(outputContext)
              && unchanged(playback))
    {
      var wasActive := isSessionActive;
      Start(micGranted);
      if !wasActive && micGranted {
        playback.Reset();
      }
    }

    /** `onopen`: wire the microphone into a script processor, if the input context exists. */
    method Opened()
      requires Valid()
      modifies this`streamSource, this`scriptProcessor, this`statusMessage
      ensures Valid()
      ensures old(inputContext) == NoContext ==> unchanged(this)
      ensures old(inputContext) != NoContext ==> streamSource && scriptProcessor && statusMessage == StatusListening
    {
      if inputContext == NoContext {
        return;
      }
      streamSource := true;
      scriptProcessor := true;
      statusMessage := StatusListening;
    }

    /** `onmessage`: fragments, then the turn flush, then audio scheduling, then interruption. */
    method Receive(msg: ServerMessage, now: Seconds)
      requires Valid()
      modifies this`pendingInput, this`pendingOutput, this`transcription, playback
      ensures Valid()
      ensures var inBuf := old(pendingInput) + Fragment(msg.inputTranscription);
              var outBuf := old(pendingOutput) + Fragment(msg.outputTranscription);
              if msg.turnComplete then
                && transcription == AppendTurn(old(transcription), Trim(inBuf), Trim(outBuf))
                && pendingInput == "" && pendingOutput == ""
              else
                transcription == old(transcription) && pendingInput == inBuf && pendingOutput == outBuf
      ensures var plays := msg.audio != "" && outputContext != NoContext;
              var s := Source(old(playback.nodesCreated), StartAt(old(playback.nextStartTime), now), msg.audioDuration);
              && playback.nodesCreated == old(playback.nodesCreated) + (if plays then 1 else 0)
              && (msg.interrupted ==>
                    && playback.sources == {} && playback.nextStartTime == 0.0
                    && playback.stopped == old(playback.stopped) + old(playback.sources)
                                           + (if plays then {s} else {}))
              && (!msg.interrupted && plays ==>
                    playback.sources == old(playback.sources) + {s} && playback.nextStartTime == End(s))
              && (!msg.interrupted && !plays ==>
                    playback.sources == old(playback.sources) && playback.nextStartTime == old(playback.nextStartTime))
              && (!msg.interrupted ==> playback.stopped == old(playback.stopped))
    {
      ReceiveText(msg);
      ReceiveAudio(msg, now);
    }

    /** The transcription half of `onmessage`: buffer both fragments, flush them on turn completion. */
    method ReceiveText(msg: ServerMessage)
      modifies this`pendingInput, this`pendingOutput, this`transcription
      ensures var inBuf := old(pendingInput) + Fragment(msg.inputTranscription);
              var outBuf := old(pendingOutput) + Fragment(msg.outputTranscription);
              if msg.turnComplete then
                && transcription == AppendTurn(old(transcription), Trim(inBuf), Trim(outBuf))
                && pendingInput == "" && pendingOutput == ""
              else
                transcription == old(transcription) && pendingInput == inBuf && pendingOutput == outBuf
    {
      if msg.inputTranscription.Some? {
        pendingInput := pendingInput + msg.inputTranscription.value;
      }
      if msg.outputTranscription.Some? {
        pendingOutput := pendingOutput + msg.outputTranscription.value;
      }
      assert pendingInput == old(pendingInput) + Fragment(msg.inputTranscription);
      assert pendingOutput == old(pendingOutput) + Fragment(msg.outputTranscription);
      if msg.turnComplete {
        var userInput := Trim(pendingInput);
        var modelOutput := Trim(pendingOutput);
        transcription := AppendTurn(transcription, userInput, modelOutput);
        pendingInput := "";
        pendingOutput := "";
      }
    }

    /**
     * The audio half of `onmessage`: schedule the payload when there is one and an output
     * context exists, then, on interruption, stop everything and rewind the cursor.
     */
    method ReceiveAudio(msg: ServerMessage, now: Seconds)
      requires Valid()
      modifies playback
      ensures Valid()
      ensures var plays := msg.audio != "" && outputContext != NoContext;
              var s := Source(old(playback.nodesCreated), StartAt(old(playback.nextStartTime), now), msg.audioDuration);
              && playback.nodesCreated == old(playback.nodesCreated) + (if plays then 1 else 0)
              && (msg.interrupted ==>
                    && playback.sources == {} && playback.nextStartTime == 0.0
                    && playback.stopped == old(playback.stopped) + old(playback.sources)
                                           + (if plays then {s} else {}))
              && (!msg.interrupted && plays ==>
                    playback.sources == old(playback.sources) + {s} && playback.nextStartTime == End(s))
              && (!msg.interrupted && !plays ==>
                    playback.sources == old(playback.sources) && playback.nextStartTime == old(playback.nextStartTime))
              && (!msg.interrupted ==> playback.stopped == old(playback.stopped))
    {
      if msg.audio != "" && outputContext != NoContext {
        var _ := playback.Schedule(now, msg.audioDuration);
      }
      if msg.interrupted {
        playback.Interrupt();
      }
    }

    /** A scheduled node's 'ended' event. */
    method SourceEnded(s: Source)
      requires Valid()
      modifies playback`sources
      ensures Valid()
      ensures playback.sources == old(playback.sources) - {s}
    {
      playback.SourceEnded(s);
    }

    /**
     * `handleStopSession`: a no-op unless a session is active or pending; otherwise release
     * the session, stream, processor and source refs, close (but keep) both contexts, stop
     * every scheduled source and, when the log has more than one entry, hand back the
     * transcript text to send for feedback. The cursor is not reset.
     */
    method Stop() returns (feedbackTranscript: Option<string>)
      requires Valid()
      modifies this`session, this`mediaStream, this`scriptProcessor, this`streamSource,
               this`inputContext, this`outputContext, this`isSessionActive,
               this`isGeneratingFeedback, this`statusMessage, playback`sources, playback`stopped
      ensures Valid()
      ensures !old(isSessionActive) && !old(session) ==>
                unchanged(this) && unchanged(playback) && feedbackTranscript == None
      ensures old(isSessionActive) || old(session) ==>
        && Released() && !isSessionActive
        && inputContext == Close(old(inputContext)) && outputContext == Close(old(outputContext))
        && playback.stopped == old(playback.stopped) + old(playback.sources)
        && (if RequestsFeedback(transcription) then
              && feedbackTranscript == Some(RenderTranscript(transcription))
              && isGeneratingFeedback && statusMessage == StatusGenerating
            else
              && feedbackTranscript == None
              && isGeneratingFeedback == old(isGeneratingFeedback) && statusMessage == StatusEnded)
      ensures transcription == old(transcription) && feedbackReport == old(feedbackReport)
      ensures pendingInput == old(pendingInput) && pendingOutput == old(pendingOutput)
      ensures playback.nextStartTime == old(playback.nextStartTime)
    {
      if !isSessionActive && !session {
        return None;
      }
      Release();
      if RequestsFeedback(transcription) {
        isGeneratingFeedback := true;
        statusMessage := StatusGenerating;
        feedbackTranscript := Some(RenderTranscript(transcription));
      } else {
        statusMessage := StatusEnded;
        feedbackTranscript := None;
      }
    }

    /** The release half of `handleStopSession`: drop every ref, close both contexts, stop all sources. */
    method Release()
      requires Valid()
      modifies this`session, this`mediaStream, this`scriptProcessor, this`streamSource,
               this`inputContext, this`outputContext, this`isSessionActive,
               playback`sources, playback`stopped
      ensures Valid() && Released() && !isSessionActive
      ensures inputContext == Close(old(inputContext)) && outputContext == Close(old(outputContext))
      ensures playback.stopped == old(playback.stopped) + old(playback.sources)
    {
      session := false;
      mediaStream := false;
      scriptProcessor := false;
      streamSource := false;
      inputContext := Close(inputContext);
      outputContext := Close(outputContext);
      playback.StopAll();
      isSessionActive := false;
    }

    /** The feedback request settles: the report text on success, `None` on failure. */
    method FeedbackSettled(report: Option<string>)
      requires Valid()
      modifies this`feedbackReport, this`statusMessage, this`isGeneratingFeedback
      ensures Valid()
      ensures !isGeneratingFeedback
      ensures report.Some? ==> feedbackReport == report.value && statusMessage == StatusReportReady
      ensures report.None? ==> feedbackReport == old(feedbackReport) && statusMessage == StatusReportFailed
    {
      match report {
        case Some(text) =>
          feedbackReport := text;
          statusMessage := StatusReportReady;
        case None =>
          statusMessage := StatusReportFailed;
      }
      isGeneratingFeedback := false;
    }

    /** `onerror`: report the error, then stop; on a live session the stop's status replaces the error. */
    method SessionError(message: string) returns (feedbackTranscript: Option<string>)
      requires Valid()
      modifies this`session, this`mediaStream, this`scriptProcessor, this`streamSource,
               this`inputContext, this`outputContext, this`isSessionActive,
               this`isGeneratingFeedback, this`statusMessage, playback`sources, playback`stopped
      ensures Valid()
      ensures !old(isSessionActive) && !old(session) ==>
                && statusMessage == "Error: " + message + ". Please try again." && feedbackTranscript == None
                && unchanged(this`session, this`mediaStream, this`scriptProcessor, this`streamSource,
                             this`inputContext, this`outputContext, this`isSessionActive, this`isGeneratingFeedback)
                && unchanged(playback)
      ensures old(isSessionActive) || old(session) ==>
        && Released() && !isSessionActive
        && inputContext == Close(old(inputContext)) && outputContext == Close(old(outputContext))
        && playback.stopped == old(playback.stopped) + old(playback.sources)
        && (if RequestsFeedback(transcription) then
              && feedbackTranscript == Some(RenderTranscript(transcription))
              && isGeneratingFeedback && statusMessage == StatusGenerating
            else
              && feedbackTranscript == None
              && isGeneratingFeedback == old(isGeneratingFeedback) && statusMessage == StatusEnded)
      ensures transcription == old(transcription) && feedbackReport == old(feedbackReport)
      ensures pendingInput == old(pendingInput) && pendingOutput == old(pendingOutput)
      ensures playback.nextStartTime == old(playback.nextStartTime)
    {
      statusMessage := "Error: " + message + ". Please try again.";
      feedbackTranscript := Stop();
    }
  }

  /**
   * `handleStartSession` keeps the cursor of the previous session, while the new output
   * context's clock starts again near 0. The first reply of the new session is then held
   * back until the old cursor: silence for `cursor - now` seconds.
   */
  lemma StaleCursorDelaysFirstReply(cursor: real, arrivals: seq<Arrival>)
    requires arrivals != [] && arrivals[0].now < cursor
    ensures ScheduleAll(cursor, arrivals)[0].start == cursor
    ensures ScheduleAll(cursor, arrivals)[0].start - arrivals[0].now > 0.0
  {
  }

  /** With the cursor rewound at start, the first reply of a session plays as soon as it arrives. */
  lemma FreshCursorPlaysOnArrival(arrivals: seq<Arrival>)
    requires arrivals != []
    ensures ScheduleAll(0.0, arrivals)[0].start == arrivals[0].now
  {
  }
}
